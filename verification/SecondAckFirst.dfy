/** A run in which the network reorders the two ACKs: the second, sent a moment after the first, arrives first and sets
    T5, and that moment ends up in the network figure. */
module SecondAckFirst {
  import opened Collections
  import opened Sessions
  import opened Waiting
  import opened Protocol
  import opened WireRuns
  import opened ProtocolTheorems
  import opened Misrouting
  import opened SharedLabelRun

  /** The responder's record: received and first answered at time 0, answered again at time 1. */
  function Record(c: Config): Job
  {
    Job(Probe(1, c.app, 0, "src", "dst"), 0, Some(0), Some(1))
  }

  function Ack1(c: Config): Frame
  {
    AckFrame(c, Record(c), 0, 1)
  }

  function Ack2(c: Config): Frame
  {
    AckFrame(c, Record(c), 1, 2)
  }

  /** What one sent probe looks like while it waits. */
  ghost predicate Sent1(c: Config, s: State, now: int)
  {
    && Idle(s, 0) && s.now == now && s.results == [] && HasRoom(s.outbox) && |s.nets| == 1
    && s.phases[0] == Awaiting(c.app, c.clock("src"), NO_ACKS)
    && s.nets[0] == Net(Route("src", "dst", 0, true, CONTEXT), false, Some(c.app), Some(0))
  }

  /** One probe waits, both its ACKs are on their way, the second sent one time unit after the first. */
  ghost predicate BothSent(c: Config, s: State)
  {
    Sent1(c, s, 1) && s.wire.jobs == map[1 := Record(c)] && Ack1(c) in s.wire.acks && Ack2(c) in s.wire.acks
  }

  lemma OneSent(c: Config) returns (steps: seq<Step>, s: State)
    ensures Leads(c, INITIAL, steps, s) && Sent1(c, s, 0)
    ensures s.wire.jobs == map[] && Record(c).pkt in s.wire.air
  {
    var s1 := WithSession(INITIAL, "src", "dst", 0, true);
    s := Sent(c, s1, 0);
    steps := AddOne(c, INITIAL, "src", "dst", 0, true);
    var more := SendOne(c, s1, 0);
    LeadsOn(c, INITIAL, steps, s1, more, s);
    steps := steps + more;
  }

  lemma AnswerOnce(c: Config, s: State) returns (steps: seq<Step>, s': State)
    requires Sent1(c, s, 0) && s.wire.jobs == map[] && Record(c).pkt in s.wire.air
    ensures Leads(c, s, steps, s') && Sent1(c, s', 0)
    ensures s'.wire.jobs == map[1 := Record(c).(second := None)] && Ack1(c) in s'.wire.acks
  {
    var s1 := AfterRecv(s, Record(c).pkt, true);
    s' := AfterAck1(c, s1, 1);
    LeadsFirst(c, s1, SendAck1(1), [], s');
    steps := [SendAck1(1)] + [];
    LeadsFirst(c, s, RecvProbe(Record(c).pkt, true), steps, s');
    steps := [RecvProbe(Record(c).pkt, true)] + steps;
  }

  lemma AnswerAgain(c: Config, s: State) returns (steps: seq<Step>, s': State)
    requires Sent1(c, s, 0) && s.wire.jobs == map[1 := Record(c).(second := None)] && Ack1(c) in s.wire.acks
    ensures Leads(c, s, steps, s') && BothSent(c, s')
  {
    var s1 := s.(now := 1);
    s' := AfterAck2(c, s1, 1);
    LeadsFirst(c, s1, SendAck2(1), [], s');
    steps := [SendAck2(1)] + [];
    LeadsFirst(c, s, Tick(1), steps, s');
    steps := [Tick(1)] + steps;
  }

  /** The wait after an ACK was taken from its channel. */
  function WaitWith(w: Wait, ev: Event): Wait
  {
    if ev.pkt.ackType == 1 then Take1(w, ev) else Take2(w, ev)
  }

  /** The state once call i has taken an ACK handled now: the channel is empty again. */
  ghost function TakenNow(c: Config, s: State, i: nat, f: Frame): State
    requires InRange(s, i) && s.phases[i].Awaiting?
  {
    var ev, ph := Event(f.pkt, s.now + c.clock(f.to)), s.phases[i];
    s.(phases := s.phases[i := Awaiting(ph.t1, ph.t2, WaitWith(ph.w, ev))],
       stats := s.stats.(byFlow := s.stats.byFlow + 1))
  }

  /** Session i waits with open, empty channels for more ACKs. */
  ghost predicate Expects(s: State, i: nat)
  {
    && InRange(s, i) && Live(s.table, i) && s.phases[i].Awaiting? && !BothReceived(s.phases[i].w)
    && s.table.objs[i].ack1.None? && s.table.objs[i].ack2.None? && !s.table.objs[i].closed
  }

  /** The action that takes an ACK of this type. */
  function TakeOf(ty: nat): Action
  {
    if ty == 1 then TakeAck1 else TakeAck2
  }

  lemma TakeBack(c: Config, s: State, i: nat, f: Frame, s1: State)
    requires Expects(s, i) && (f.pkt.ackType == 1 || f.pkt.ackType == 2) && Handed(c, s, f, i, s1)
    ensures Ready(s1, i, TakeOf(f.pkt.ackType))
    ensures AfterCall(c, s1, i, TakeOf(f.pkt.ackType)) == TakenNow(c, s, i, f)
  {
    var s2 := AfterCall(c, s1, i, TakeOf(f.pkt.ackType));
    assert s2.table.objs == s.table.objs;
  }

  lemma HandleAndTake(c: Config, s: State, i: nat, f: Frame, rest: seq<Step>, s': State) returns (steps: seq<Step>)
    requires TableInv(s.table) && Expects(s, i) && f in s.wire.acks && f.left <= s.now
    requires f.pkt.ackType == 1 || f.pkt.ackType == 2
    requires Leads(c, TakenNow(c, s, i, f), rest, s')
    ensures Leads(c, s, steps, s')
  {
    var ev := Event(f.pkt, s.now + c.clock(f.to));
    var s1 := AfterHandle(s, ev, s.table.objs[i].id.flow, true, Some(i));
    var a := TakeOf(f.pkt.ackType);
    TakeBack(c, s, i, f, s1);
    CallFirst(c, s1, i, a, rest, s');
    steps := HandleFirst(c, s, f, i, s1, [Call(i, a)] + rest, s');
  }

  /** Both ACKs were taken, in the wrong order. */
  ghost predicate BothTaken(c: Config, s: State)
  {
    && s.results == [] && HasRoom(s.outbox) && s.now == 2 && InRange(s, 0) && |s.nets| == 1
    && s.phases[0] == Awaiting(c.app, c.clock("src"), Reordered(c))
    && s.nets[0] == Net(Route("src", "dst", 0, true, CONTEXT), false, Some(c.app), Some(0))
    && s.wire.jobs == map[1 := Record(c)]
  }

  /** The second ACK is handled and taken, then, one time unit later, the first. */
  lemma TakeReordered(c: Config, s: State) returns (steps: seq<Step>, s': State)
    requires TableInv(s.table) && BothSent(c, s)
    ensures Leads(c, s, steps, s') && BothTaken(c, s')
  {
    var s1 := TakenNow(c, s, 0, Ack2(c));
    var s2 := s1.(now := 2);
    s' := TakenNow(c, s2, 0, Ack1(c));
    steps := HandleAndTake(c, s2, 0, Ack1(c), [], s');
    LeadsFirst(c, s1, Tick(1), steps, s');
    steps := [Tick(1)] + steps;
    steps := HandleAndTake(c, s, 0, Ack2(c), steps, s');
  }

  /** What the call then holds. */
  function Reordered(c: Config): Wait
  {
    Take1(Take2(NO_ACKS, Event(Ack2(c).pkt, 1 + c.clock("src"))), Event(Ack1(c).pkt, 2 + c.clock("src")))
  }

  /** The one result is OK and its own, T5 was set by the second ACK alone, and the network figure is one above the
      two transit times, both zero. */
  ghost predicate GapInResult(c: Config, s: State, r: Result)
  {
    && s.results == [(0, r)] && r.status == OK && |s.phases| > 0 && s.phases[0].Published?
    && MeasuredFrom(c, s, 0, r) && SetsT5(s.phases[0].w, r, 2) && !SetsT5(s.phases[0].w, r, 1)
    && ExceedsByGap(c, s, 0, r, 2) && r.metrics.value.networkRtt == 1
    && Left(s.wire.jobs[1], 2) == Some(s.wire.jobs[1].t4.value + 1)
  }

  lemma ReorderedFigures(c: Config, s: State, r: Result)
    requires |s.nets| == 1 && s.nets[0] == Net(Route("src", "dst", 0, true, CONTEXT), false, Some(c.app), Some(0))
    requires s.wire.jobs == map[1 := Record(c)] && s.results == [(0, r)]
    requires r == Conclude(c.app, c.clock("src"), Reordered(c), 2 + c.app)
    requires |s.phases| > 0 && s.phases[0] == Published(r, Reordered(c))
    ensures GapInResult(c, s, r)
  {
    ConcludeIsComplete(c.app, c.clock("src"), Reordered(c), 2 + c.app);
  }

  lemma ReachBothSent(c: Config) returns (steps: seq<Step>, s: State)
    ensures Leads(c, INITIAL, steps, s) && BothSent(c, s)
  {
    var s1, s2, more;
    steps, s1 := OneSent(c);
    more, s2 := AnswerOnce(c, s1);
    LeadsOn(c, INITIAL, steps, s1, more, s2);
    steps := steps + more;
    more, s := AnswerAgain(c, s2);
    LeadsOn(c, INITIAL, steps, s2, more, s);
    steps := steps + more;
  }

  /** For all clocks there is a run in which the gap between the two ACKs shows in the network figure. */
  lemma GapShows(c: Config) returns (states: seq<State>, steps: seq<Step>, r: Result)
    ensures IsRun(c, states, steps) && GapInResult(c, states[|steps|], r)
  {
    var s1, s2, s', more;
    steps, s1 := ReachBothSent(c);
    SetupInv(c, steps, s1);
    more, s2 := TakeReordered(c, s1);
    LeadsOn(c, INITIAL, steps, s1, more, s2);
    steps := steps + more;
    more, s', r := PublishReordered(c, s2);
    LeadsOn(c, INITIAL, steps, s2, more, s');
    steps := steps + more;
    states := LeadsPath(c, INITIAL, steps, s');
  }

  lemma PublishReordered(c: Config, s: State) returns (steps: seq<Step>, s': State, r: Result)
    requires BothTaken(c, s)
    ensures Leads(c, s, steps, s') && GapInResult(c, s', r)
  {
    steps, s' := PublishProbe(c, s, 0);
    r := Conclude(c.app, c.clock("src"), Reordered(c), 2 + c.app);
    ReorderedFigures(c, s', r);
  }
}

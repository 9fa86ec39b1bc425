/** Why the label hypothesis is needed: whenever two live sessions share a flow label (as all
    service-tracing probes do, their label being 0), one of them can be completed by the ACKs of the
    other and publish the other's responder times as its own. */
module Misrouting {
  import opened Collections
  import opened Sessions
  import opened Waiting
  import opened Protocol
  import opened TableRuns
  import opened WireRuns

  /** An ACK of any probe is handed to a live session with the label it arrives with, which gives `s1`. */
  ghost predicate Handed(c: Config, s: State, f: Frame, i: nat, s1: State)
  {
    && TableInv(s.table) && f in s.wire.acks && f.left <= s.now && Live(s.table, i)
    && s1 == AfterHandle(s, Event(f.pkt, s.now + c.clock(f.to)), s.table.objs[i].id.flow, true, Some(i))
  }

  lemma HandleFirst(c: Config, s: State, f: Frame, i: nat, s1: State, rest: seq<Step>, s': State)
    returns (steps: seq<Step>)
    requires Handed(c, s, f, i, s1) && Leads(c, s1, rest, s')
    ensures Leads(c, s, steps, s') && |steps| == |rest| + 1
  {
    var st := HandleAck(f, s.now, s.table.objs[i].id.flow, f.sgid, true, Some(i));
    assert ScanByLabel(s.table, st.seenFlow, Some(i));
    LeadsFirst(c, s, st, rest, s');
    steps := [st] + rest;
  }

  /** Probe i is waiting, nothing has reached its channels, and they are open. */
  ghost predicate Idle(s: State, i: nat)
  {
    && InRange(s, i) && Live(s.table, i) && s.phases[i].Awaiting? && s.phases[i].w == NO_ACKS
    && s.table.objs[i].ack1.None? && s.table.objs[i].ack2.None? && !s.table.objs[i].closed
  }

  /** The state once both ACKs are in the channels of session i. */
  ghost function BothDelivered(c: Config, s: State, i: nat, f1: Frame, f2: Frame): State
    requires i < |s.table.objs|
  {
    var o := s.table.objs[i];
    var ev1, ev2 := Event(f1.pkt, s.now + c.clock(f1.to)), Event(f2.pkt, s.now + c.clock(f2.to));
    s.(table := s.table.(objs := s.table.objs[i := o.(ack1 := Some(ev1), ack2 := Some(ev2))]),
       stats := s.stats.(byFlow := s.stats.byFlow + 2))
  }

  lemma DeliverBoth(c: Config, s: State, i: nat, f1: Frame, f2: Frame, rest: seq<Step>, s': State)
    returns (steps: seq<Step>)
    requires TableInv(s.table) && Idle(s, i) && f1 in s.wire.acks && f2 in s.wire.acks
    requires f1.pkt.ackType == 1 && f2.pkt.ackType == 2 && f1.left <= s.now && f2.left <= s.now
    requires Leads(c, BothDelivered(c, s, i, f1, f2), rest, s')
    ensures Leads(c, s, steps, s') && |steps| == |rest| + 2
  {
    var s1 := DeliveredTwice(c, s, i, f1, f2);
    steps := HandleFirst(c, s1, f2, i, BothDelivered(c, s, i, f1, f2), rest, s');
    steps := HandleFirst(c, s, f1, i, s1, steps, s');
  }

  lemma DeliveredTwice(c: Config, s: State, i: nat, f1: Frame, f2: Frame) returns (s1: State)
    requires TableInv(s.table) && Idle(s, i) && f1 in s.wire.acks && f2 in s.wire.acks
    requires f1.pkt.ackType == 1 && f2.pkt.ackType == 2 && f1.left <= s.now && f2.left <= s.now
    ensures Handed(c, s, f1, i, s1) && Handed(c, s1, f2, i, BothDelivered(c, s, i, f1, f2))
  {
    var flow := s.table.objs[i].id.flow;
    s1 := AfterHandle(s, Event(f1.pkt, s.now + c.clock(f1.to)), flow, true, Some(i));
    var s2 := AfterHandle(s1, Event(f2.pkt, s.now + c.clock(f2.to)), flow, true, Some(i));
    SameIdents(s.table, s1.table);
    assert s2.table.objs == BothDelivered(c, s, i, f1, f2).table.objs;
  }

  /** From both ACKs taken to the published result. */
  lemma PublishProbe(c: Config, s: State, i: nat) returns (steps: seq<Step>, s': State)
    requires InRange(s, i) && s.phases[i].Awaiting? && BothReceived(s.phases[i].w) && HasRoom(s.outbox)
    ensures Leads(c, s, steps, s') && s'.wire == s.wire && s'.nets == s.nets && |steps| == 2
    ensures var r := Conclude(s.phases[i].t1, s.phases[i].t2, s.phases[i].w, s.now + c.app);
      s'.results == s.results + [(i, r)] && s'.phases == s.phases[i := Published(r, s.phases[i].w)]
  {
    var s1 := AfterCall(c, s, i, Finish);
    s' := AfterCall(c, s1, i, Publish);
    CallFirst(c, s1, i, Publish, [], s');
    CallFirst(c, s, i, Finish, [Call(i, Publish)] + [], s');
    steps := [Call(i, Finish)] + ([Call(i, Publish)] + []);
  }

  /** From both ACKs in the channels to the published result. */
  lemma CompleteProbe(c: Config, s: State, i: nat) returns (steps: seq<Step>, s': State)
    requires InRange(s, i) && s.phases[i].Awaiting? && s.phases[i].w == NO_ACKS && HasRoom(s.outbox)
    requires s.table.objs[i].ack1.Some? && s.table.objs[i].ack2.Some?
    ensures Leads(c, s, steps, s') && s'.wire == s.wire && |steps| == 4
    ensures var o, ph := s.table.objs[i], s.phases[i];
      var w := Take2(Take1(NO_ACKS, o.ack1.value), o.ack2.value);
      s'.results == s.results + [(i, Conclude(ph.t1, ph.t2, w, s.now + c.app))]
  {
    var s1 := AfterCall(c, s, i, TakeAck1);
    var s2 := AfterCall(c, s1, i, TakeAck2);
    var rest;
    rest, s' := PublishProbe(c, s2, i);
    CallFirst(c, s1, i, TakeAck2, rest, s');
    CallFirst(c, s, i, TakeAck1, [Call(i, TakeAck2)] + rest, s');
    steps := [Call(i, TakeAck1)] + ([Call(i, TakeAck2)] + rest);
  }

  /** Sharing a label is enough: if session i is waiting and both ACKs of another probe n arrive with
      i's label, six steps later probe i has published an OK result whose T3 and T4 are what the
      responder recorded for probe n. */
  lemma SharedLabelMisattributes(c: Config, s: State, i: nat, f1: Frame, f2: Frame, n: nat)
    returns (steps: seq<Step>, s': State, r: Result)
    requires TableInv(s.table) && WireInv(c, s.nets, s.wire, s.now) && Idle(s, i) && n != i + 1
    requires HasRoom(s.outbox)
    requires f1.flow == s.table.objs[i].id.flow && f2.flow == s.table.objs[i].id.flow
    requires f1 in s.wire.acks && f2 in s.wire.acks && f1.pkt.num == n && f2.pkt.num == n
    requires f1.pkt.ackType == 1 && f2.pkt.ackType == 2
    ensures Leads(c, s, steps, s') && |steps| == 6
    ensures s'.results == s.results + [(i, r)] && r.status == OK && Complete(r) && s'.wire == s.wire
    ensures n in s.wire.jobs && s.wire.jobs[n].t4.Some? && s.wire.jobs[n].pkt.num == n
    ensures r.t3.value == s.wire.jobs[n].t3 + c.clock(s.wire.jobs[n].pkt.dst)
    ensures r.t4.value == s.wire.jobs[n].t4.value + c.clock(s.wire.jobs[n].pkt.dst)
  {
    var mid := BothDelivered(c, s, i, f1, f2);
    var rest;
    rest, s' := CompleteProbe(c, mid, i);
    OtherRecord(c, s, n, f1);
    OtherRecord(c, s, n, f2);
    steps := DeliverBoth(c, s, i, f1, f2, rest, s');
    var w := Take2(Take1(NO_ACKS, mid.table.objs[i].ack1.value), mid.table.objs[i].ack2.value);
    r := Conclude(s.phases[i].t1, s.phases[i].t2, w, s.now + c.app);
    ConcludeIsComplete(s.phases[i].t1, s.phases[i].t2, w, s.now + c.app);
  }

  lemma OtherRecord(c: Config, s: State, n: nat, f: Frame)
    requires WireInv(c, s.nets, s.wire, s.now) && f in s.wire.acks && f.pkt.num == n
    ensures n in s.wire.jobs && s.wire.jobs[n].t4.Some? && s.wire.jobs[n].pkt.num == n
    ensures f.left <= s.now
    ensures f.pkt.t3 == s.wire.jobs[n].t3 + c.clock(s.wire.jobs[n].pkt.dst)
    ensures f.pkt.ackType == 2 ==> f.pkt.t4 == s.wire.jobs[n].t4.value + c.clock(s.wire.jobs[n].pkt.dst)
  {
    assert GoodFrame(c, s.wire.jobs, f);
    assert GoodJob(s.nets, n, s.wire.jobs[n], s.now);
  }
}

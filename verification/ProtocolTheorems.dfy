/** The guarantees of the probe protocol over whole runs. */
module ProtocolTheorems {
  import opened Collections
  import opened Sessions
  import opened Waiting
  import opened Protocol
  import opened TableRuns
  import opened WireRuns
  import opened EventRuns
  import opened CountRuns

  ghost predicate Inv(c: Config, s: State)
  {
    && TabInv(s) && CloseInv(s) && NetInv(c, s) && ChanInv(c, s)
    && CountInv(s.phases, s.stats) && PubInv(s.phases, s.results) && AckInv(s)
  }

  lemma InitialTable()
    ensures TabInv(INITIAL) && CloseInv(INITIAL)
  {
    assert forall i :: !Leaving(INITIAL, i);
  }

  lemma InitialWire(c: Config)
    ensures NetInv(c, INITIAL)
  {
  }

  lemma InitialEvents(c: Config)
    ensures ChanInv(c, INITIAL) && Routed(INITIAL)
  {
  }

  lemma InitialCounts()
    ensures CountInv([], INITIAL.stats) && PubInv([], [])
  {
    var none: seq<Phase> := [];
    assert forall p: Phase -> bool :: Count(none, p) == 0;
  }

  lemma InitialAcks()
    ensures AckInv(INITIAL)
  {
    assert TotalOwed(map[]) == 0;
  }

  lemma InvInitial(c: Config)
    ensures Inv(c, INITIAL) && Routed(INITIAL)
  {
    InitialTable();
    InitialWire(c);
    InitialEvents(c);
    InitialCounts();
    InitialAcks();
  }

  lemma InvStep(c: Config, s: State, st: Step)
    requires Inv(c, s) && Enabled(s, st)
    ensures Inv(c, Apply(c, s, st))
  {
    TabStep(c, s, st);
    CloseStep(c, s, st);
    NetStep(c, s, st);
    ChanStep(c, s, st);
    CountStep(c, s, st);
    PubStep(c, s, st);
    AirNotTaken(c, s.nets, s.wire, s.now);
    AckStep(c, s, st);
  }

  /** Every state of every run satisfies the invariant. */
  lemma {:induction false} InvRun(c: Config, states: seq<State>, steps: seq<Step>, k: nat)
    requires IsRun(c, states, steps) && k < |states|
    ensures Inv(c, states[k])
  {
    if k == 0 {
      InvInitial(c);
    } else {
      InvRun(c, states, steps, k - 1);
      InvStep(c, states[k - 1], steps[k - 1]);
    }
  }

  lemma TableOverRuns(c: Config, states: seq<State>, steps: seq<Step>, k: nat)
    requires IsRun(c, states, steps) && k < |states|
    ensures TableInv(states[k].table)
  {
    InvRun(c, states, steps, k);
  }

  /** ACK routing: if no ACK is ever handled while another live session has the label it arrived with,
      every event in every channel carries its session's own sequence number. */
  lemma {:induction false} RoutingOverRuns(c: Config, states: seq<State>, steps: seq<Step>, k: nat)
    requires OwnedRun(c, states, steps) && k < |states|
    ensures Routed(states[k])
  {
    if k == 0 {
      InvInitial(c);
    } else {
      RoutingOverRuns(c, states, steps, k - 1);
      InvRun(c, states, steps, k - 1);
      RoutedStep(c, states[k - 1], steps[k - 1]);
    }
  }

  /** At every point of every run the indexed lookup returns the one live session with that number and
      target, or none, whatever the map order. */
  lemma LookupOverRuns(c: Config, states: seq<State>, steps: seq<Step>, k: nat, num: nat, gid: string, r: Option<nat>)
    requires IsRun(c, states, steps) && k < |states|
    ensures TableInv(states[k].table)
    ensures FindOutcome(states[k].table, num, gid, r) <==> r == LiveMatch(states[k].table, num, gid)
    ensures FindOutcome(states[k].table, num, gid, r) <==> ScanByNumber(states[k].table, num, gid, r)
  {
    InvRun(c, states, steps, k);
    LookupRefinesScan(states[k].table, num, gid, r);
  }

  ghost predicate SameIdent(objs: seq<Session>, objs': seq<Session>, i: nat)
  {
    i < |objs| <= |objs'| && objs'[i].id == objs[i].id
  }

  lemma IdentsStep(c: Config, s: State, st: Step, i: nat)
    requires Enabled(s, st) && i < |s.table.objs|
    ensures SameIdent(s.table.objs, Apply(c, s, st).table.objs, i)
  {
    if st.HandleAck? {
      HandleFrame(c, s, st);
    }
  }

  /** Every session object of the earlier table is in the later one, with its identity. */
  ghost predicate Keeps(objs: seq<Session>, objs': seq<Session>)
  {
    |objs| <= |objs'| && forall i :: 0 <= i < |objs| ==> objs'[i].id == objs[i].id
  }

  lemma StepKeeps(c: Config, s: State, st: Step)
    requires Enabled(s, st)
    ensures Keeps(s.table.objs, Apply(c, s, st).table.objs)
  {
    forall i | 0 <= i < |s.table.objs|
      ensures SameIdent(s.table.objs, Apply(c, s, st).table.objs, i)
    {
      IdentsStep(c, s, st, i);
    }
  }

  /** The session objects at every point of a run. */
  ghost function Objects(states: seq<State>): seq<seq<Session>>
  {
    seq(|states|, k requires 0 <= k < |states| => states[k].table.objs)
  }

  ghost predicate AllKept(objects: seq<seq<Session>>)
  {
    forall n :: 0 < n < |objects| ==> Keeps(objects[n - 1], objects[n])
  }

  lemma {:induction false} KeepsOn(objects: seq<seq<Session>>, j: nat, k: nat)
    requires j <= k < |objects| && AllKept(objects)
    ensures Keeps(objects[j], objects[k])
    decreases k
  {
    if j < k {
      KeepsOn(objects, j, k - 1);
    }
  }

  /** A state of a run and the next one. */
  lemma RunStep(c: Config, states: seq<State>, steps: seq<Step>, k: nat) returns (s: State, st: Step)
    requires IsRun(c, states, steps) && k < |steps|
    ensures s == states[k] && st == steps[k] && Enabled(s, st) && states[k + 1] == Apply(c, s, st)
  {
    s, st := states[k], steps[k];
  }

  lemma RunKeeps(c: Config, states: seq<State>, steps: seq<Step>)
    requires IsRun(c, states, steps)
    ensures AllKept(Objects(states))
  {
    var objects := Objects(states);
    forall n | 0 < n < |objects|
      ensures Keeps(objects[n - 1], objects[n])
    {
      var s, st := RunStep(c, states, steps, n - 1);
      StepKeeps(c, s, st);
    }
  }

  /** Identities of sessions never change along a run. */
  lemma IdentsStable(c: Config, states: seq<State>, steps: seq<Step>, j: nat, k: nat, i: nat)
    requires IsRun(c, states, steps) && j <= k < |states| && i < |states[j].table.objs|
    ensures SameIdent(states[j].table.objs, states[k].table.objs, i)
  {
    RunKeeps(c, states, steps);
    KeepsOn(Objects(states), j, k);
  }

  /** An index entry read in one table and followed in a later one leads to the session of that number, and to
      nothing exactly if that session is not live. */
  lemma IndexThenMap(ta: Table, tb: Table, num: nat)
    requires TableInv(ta) && TableInv(tb) && num in ta.index
    requires num <= |tb.objs| && tb.objs[num - 1].id == ta.objs[num - 1].id
    ensures ta.index[num] in tb.sessions <==> Live(tb, num - 1)
    ensures ta.index[num] in tb.sessions ==> tb.sessions[ta.index[num]] == num - 1
  {
    if Live(tb, num - 1) {
      LiveIsOwnEntry(tb, num - 1);
    }
  }

  /** The lookup's own reads may be spread over a run: the index read at `a` and the session map at `b`. That path
      returns a session if and only if the one with that number is live at `b`, and then that one. */
  lemma SplitLookup(c: Config, states: seq<State>, steps: seq<Step>, a: nat, b: nat, num: nat)
    requires IsRun(c, states, steps) && a <= b < |states| && num in states[a].table.index
    ensures num > 0 && (states[a].table.index[num] in states[b].table.sessions <==> Live(states[b].table, num - 1))
    ensures states[a].table.index[num] in states[b].table.sessions ==>
              states[b].table.sessions[states[a].table.index[num]] == num - 1
  {
    TableOverRuns(c, states, steps, a);
    TableOverRuns(c, states, steps, b);
    IdentsStable(c, states, steps, a, b, num - 1);
    IndexThenMap(states[a].table, states[b].table, num);
  }

  /** Storing a session never replaces another session's entry. */
  lemma StoreNeverOverwrites(c: Config, states: seq<State>, steps: seq<Step>, k: nat)
    requires IsRun(c, states, steps) && k < |steps| && steps[k].Call? && steps[k].a == Store
    ensures states[k].table.objs[steps[k].i].id.key !in states[k].table.sessions
  {
    InvRun(c, states, steps, k);
    assert !Live(states[k].table, steps[k].i);
  }

  /** Channels are closed at most once in any interleaving of deferred removal, cleanup and Close; until
      Close starts only one remover ever tries, and a live session's channels are open. */
  lemma ClosedAtMostOnce(c: Config, states: seq<State>, steps: seq<Step>, k: nat, i: nat)
    requires IsRun(c, states, steps) && k < |states| && i < |states[k].table.objs|
    ensures states[k].table.objs[i].closes <= 1
    ensures !states[k].shut ==> states[k].table.objs[i].closeCalls <= 1
    ensures !states[k].shut && Live(states[k].table, i) ==> !states[k].table.objs[i].closed
  {
    InvRun(c, states, steps, k);
    assert CloseCounts(states[k].table.objs[i]);
  }

  lemma ResultComplete(c: Config, s: State, j: nat)
    requires NetInv(c, s) && ChanInv(c, s) && PubInv(s.phases, s.results) && j < |s.results|
    ensures s.results[j].1.status != UNKNOWN
    ensures s.results[j].1.status == OK ==> Complete(s.results[j].1)
  {
    var (i, r) := s.results[j];
    assert PhaseNet(c, s.phases[i], s.nets[i]);
    assert GoodWait(c, s.wire.jobs, s.now, WaitOf(s.phases[i]));
    if r.status == OK {
      var net := s.nets[i];
      ConcludeIsComplete(net.sentAt.value, net.departed.value + c.clock(net.route.src), s.phases[i].w, r.t6.value);
    }
  }

  /** Every published result is OK, TIMEOUT or ERROR, and every OK result is complete. */
  lemma OkResultsComplete(c: Config, states: seq<State>, steps: seq<Step>, k: nat, j: nat)
    requires IsRun(c, states, steps) && k < |states| && j < |states[k].results|
    ensures states[k].results[j].1.status != UNKNOWN
    ensures states[k].results[j].1.status == OK ==> Complete(states[k].results[j].1)
  {
    InvRun(c, states, steps, k);
    ResultComplete(c, states[k], j);
  }

  /** A result that is not OK: no T3, T4, T6 and no figures; timed out with its own T1 and T2, and T5 exactly if an ACK
      was taken; or failed with the same, or with no timestamps at all. */
  ghost predicate NotOk(c: Config, s: State, i: nat, r: Result)
  {
    && i < |s.nets| && i < |s.phases| && s.phases[i].Published?
    && (r.status == TIMEOUT || r.status == ERROR)
    && r.t3.None? && r.t4.None? && r.t6.None? && r.metrics.None?
    && (r.status == TIMEOUT ==> r.t1.Some?)
    && (r.t1.Some? ==>
          && s.nets[i].departed.Some? && r.t1 == s.nets[i].sentAt
          && r.t2 == Some(s.nets[i].departed.value + c.clock(s.nets[i].route.src))
          && (r.t5.Some? <==> s.phases[i].w.ack1.Some? || s.phases[i].w.ack2.Some?))
    && (r.t1.None? ==> r.t2.None? && r.t5.None?)
  }

  /** In every run every published result that is not OK is of that form. */
  lemma OtherResults(c: Config, states: seq<State>, steps: seq<Step>, k: nat, j: nat)
    requires IsRun(c, states, steps) && k < |states| && j < |states[k].results|
    requires states[k].results[j].1.status != OK
    ensures NotOk(c, states[k], states[k].results[j].0, states[k].results[j].1)
  {
    InvRun(c, states, steps, k);
    OtherResult(c, states[k], j);
  }

  lemma OtherResult(c: Config, s: State, j: nat)
    requires NetInv(c, s) && ChanInv(c, s) && PubInv(s.phases, s.results) && j < |s.results|
    requires s.results[j].1.status != OK
    ensures NotOk(c, s, s.results[j].0, s.results[j].1)
  {
    var i := s.results[j].0;
    assert PhaseNet(c, s.phases[i], s.nets[i]);
    assert GoodWait(c, s.wire.jobs, s.now, WaitOf(s.phases[i]));
  }

  /** The true times behind an OK result of probe i: departure, arrival at the responder, departure of
      the first ACK, and arrival of the ACK taken first. */
  ghost predicate MeasuredFrom(c: Config, s: State, i: nat, r: Result)
  {
    && i < |s.nets| && i + 1 in s.wire.jobs && Complete(r)
    && var net, job := s.nets[i], s.wire.jobs[i + 1];
       && net.departed.Some? && job.t4.Some? && job.pkt == PacketOf(net, i)
       && job.pkt.num == i + 1 && job.pkt.t1 == r.t1.value && job.pkt.flow == net.route.flow
       && job.pkt.src == net.route.src && job.pkt.dst == net.route.dst
       && r.t1 == net.sentAt && r.t2.value == net.departed.value + c.clock(net.route.src)
       && r.t3.value == job.t3 + c.clock(net.route.dst)
       && r.t4.value == job.t4.value + c.clock(net.route.dst)
       && net.departed.value <= job.t3 <= job.t4.value <= r.t5.value - c.clock(net.route.src)
  }

  lemma ResultIsOwn(c: Config, s: State, j: nat)
    requires NetInv(c, s) && ChanInv(c, s) && PubInv(s.phases, s.results) && Routed(s) && |s.phases| == |s.table.objs|
    requires j < |s.results| && s.results[j].1.status == OK
    ensures MeasuredFrom(c, s, s.results[j].0, s.results[j].1)
  {
    ResultComplete(c, s, j);
    var (i, r) := s.results[j];
    assert PhaseNet(c, s.phases[i], s.nets[i]);
    assert GoodWait(c, s.wire.jobs, s.now, WaitOf(s.phases[i]));
    assert OwnSlot(WaitOf(s.phases[i]).ack1, i + 1) && OwnSlot(WaitOf(s.phases[i]).ack2, i + 1);
    var net := s.nets[i];
    ConcludeIsComplete(net.sentAt.value, net.departed.value + c.clock(net.route.src), s.phases[i].w, r.t6.value);
    assert GoodJob(s.nets, i + 1, s.wire.jobs[i + 1], s.now);
  }

  /** In runs with unambiguous labels every OK result is measured from its own exchange: T3 and T4 are
      what the responder recorded for this very probe, in causal order. */
  lemma OkResultsAreOwn(c: Config, states: seq<State>, steps: seq<Step>, k: nat, j: nat)
    requires OwnedRun(c, states, steps) && k < |states| && j < |states[k].results|
    requires states[k].results[j].1.status == OK
    ensures MeasuredFrom(c, states[k], states[k].results[j].0, states[k].results[j].1)
  {
    InvRun(c, states, steps, k);
    RoutingOverRuns(c, states, steps, k);
    ResultIsOwn(c, states[k], j);
  }

  /** Measurement: the three figures add up to the T1-to-T6 time; the network figure is the probe's true transit
      time plus the true time from the departure of the first ACK to the arrival of the ACK that set T5, so no
      clock offset enters it, and it is never negative. */
  lemma MeasurementIsRight(c: Config, states: seq<State>, steps: seq<Step>, k: nat, j: nat)
    requires OwnedRun(c, states, steps) && k < |states| && j < |states[k].results|
    requires states[k].results[j].1.status == OK
    ensures var s := states[k];
      var (i, r) := s.results[j];
      && MeasuredFrom(c, s, i, r)
      && var m, net, job := r.metrics.value, s.nets[i], s.wire.jobs[i + 1];
         && m.networkRtt + m.responderDelay + m.proberDelay == r.t6.value - r.t1.value
         && m.networkRtt == (job.t3 - net.departed.value) + (r.t5.value - c.clock(net.route.src) - job.t4.value)
         && m.networkRtt >= 0
         && m.responderDelay == job.t4.value - job.t3 >= 0
  {
    OkResultsAreOwn(c, states, steps, k, j);
  }

  /** The ACK of this type was received at T5: it is the one that set T5, or arrived at the same moment. */
  ghost predicate SetsT5(w: Wait, r: Result, ty: nat)
  {
    && (ty == 1 || ty == 2) && r.t5.Some?
    && var ev := if ty == 1 then w.ack1 else w.ack2;
       ev.Some? && ev.value.receivedAt == r.t5.value
  }

  /** With the ACK of type `ty` setting T5, how far the network figure is above probe transit plus the transit of
      that ACK. */
  ghost predicate ExceedsByGap(c: Config, s: State, i: nat, r: Result, ty: nat)
    requires MeasuredFrom(c, s, i, r)
  {
    var net, job := s.nets[i], s.wire.jobs[i + 1];
    && Left(job, ty).Some?
    && var left, arrived := Left(job, ty).value, r.t5.value - c.clock(net.route.src);
       var transits, gap := (job.t3 - net.departed.value) + (arrived - left), left - job.t4.value;
       && left <= arrived && 0 <= gap && (ty == 1 ==> gap == 0)
       && r.metrics.value.networkRtt == transits + gap
       && (r.metrics.value.networkRtt == transits <==> ty == 1 || gap == 0)
  }

  /** The ACK of type `ty` in the call's hands is its own, and arrived after it left. */
  lemma HeldAck(c: Config, s: State, i: nat, ty: nat)
    requires NetInv(c, s) && ChanInv(c, s) && Routed(s) && |s.phases| == |s.table.objs|
    requires i < |s.phases| && s.phases[i].Published? && i + 1 in s.wire.jobs && (ty == 1 || ty == 2)
    requires var ev := if ty == 1 then s.phases[i].w.ack1 else s.phases[i].w.ack2; ev.Some?
    ensures var ev := if ty == 1 then s.phases[i].w.ack1.value else s.phases[i].w.ack2.value;
      var job := s.wire.jobs[i + 1];
      && job.t4.Some? && Left(job, ty).Some? && job.t4.value <= Left(job, ty).value
      && Left(job, ty).value + c.clock(job.pkt.src) <= ev.receivedAt
  {
    assert GoodWait(c, s.wire.jobs, s.now, WaitOf(s.phases[i]));
    assert OwnSlot(WaitOf(s.phases[i]).ack1, i + 1) && OwnSlot(WaitOf(s.phases[i]).ack2, i + 1);
    assert GoodJob(s.nets, i + 1, s.wire.jobs[i + 1], s.now);
  }

  lemma GapFigures(c: Config, s: State, i: nat, r: Result, ty: nat)
    requires MeasuredFrom(c, s, i, r) && (ty == 1 || ty == 2)
    requires var job := s.wire.jobs[i + 1];
      && Left(job, ty).Some? && job.t4.value <= Left(job, ty).value
      && Left(job, ty).value + c.clock(job.pkt.src) <= r.t5.value
    ensures ExceedsByGap(c, s, i, r, ty)
  {
  }

  lemma ResultExceeds(c: Config, s: State, j: nat, ty: nat)
    requires NetInv(c, s) && ChanInv(c, s) && PubInv(s.phases, s.results) && Routed(s) && |s.phases| == |s.table.objs|
    requires j < |s.results| && s.results[j].1.status == OK
    requires MeasuredFrom(c, s, s.results[j].0, s.results[j].1)
    requires SetsT5(s.phases[s.results[j].0].w, s.results[j].1, ty)
    ensures ExceedsByGap(c, s, s.results[j].0, s.results[j].1, ty)
  {
    HeldAck(c, s, s.results[j].0, ty);
    GapFigures(c, s, s.results[j].0, s.results[j].1, ty);
  }

  lemma ResultSetsT5(c: Config, s: State, j: nat)
    requires NetInv(c, s) && ChanInv(c, s) && PubInv(s.phases, s.results)
    requires j < |s.results| && s.results[j].1.status == OK
    ensures var w := s.phases[s.results[j].0].w; SetsT5(w, s.results[j].1, 1) || SetsT5(w, s.results[j].1, 2)
  {
    var i := s.results[j].0;
    assert PhaseNet(c, s.phases[i], s.nets[i]);
    assert GoodWait(c, s.wire.jobs, s.now, WaitOf(s.phases[i]));
  }

  /** When the network figure is a round trip: it equals probe transit plus the transit of the ACK that set T5 if
      and only if that is the first ACK or both left together; otherwise it exceeds it by exactly the time between
      the departures of the two ACKs. */
  lemma RoundTripIff(c: Config, states: seq<State>, steps: seq<Step>, k: nat, j: nat)
    requires OwnedRun(c, states, steps) && k < |states| && j < |states[k].results|
    requires states[k].results[j].1.status == OK
    ensures var s := states[k];
      var (i, r) := s.results[j];
      && MeasuredFrom(c, s, i, r) && i < |s.phases| && s.phases[i].Published?
      && (SetsT5(s.phases[i].w, r, 1) || SetsT5(s.phases[i].w, r, 2))
      && forall ty :: SetsT5(s.phases[i].w, r, ty) ==> ExceedsByGap(c, s, i, r, ty)
  {
    OkResultsAreOwn(c, states, steps, k, j);
    InvRun(c, states, steps, k);
    RoutingOverRuns(c, states, steps, k);
    var s := states[k];
    ResultSetsT5(c, s, j);
    forall ty | SetsT5(s.phases[s.results[j].0].w, s.results[j].1, ty)
      ensures ExceedsByGap(c, s, s.results[j].0, s.results[j].1, ty)
    {
      ResultExceeds(c, s, j, ty);
    }
  }

  /** At every state the sessions created are exactly the probes that succeeded, timed out, failed, had no
      queue, or are in flight; and the success counters count the calls that ended so. */
  lemma Accounting(c: Config, states: seq<State>, steps: seq<Step>, k: nat)
    requires IsRun(c, states, steps) && k < |states|
    ensures var s := states[k];
      && s.stats.created == s.stats.ok + s.stats.timeouts + s.stats.failed + s.stats.noQueue + Count(s.phases, InFlight)
      && s.stats.ok == Count(s.phases, EndedOk) && s.stats.timeouts == Count(s.phases, EndedTimeout)
      && s.stats.failed + s.stats.noQueue == Count(s.phases, EndedError)
      && s.stats.acksSent <= 2 * s.stats.probesReceived
  {
    InvRun(c, states, steps, k);
  }

  /** Every call that has published did so exactly once, and nothing else was published. */
  lemma OneResultPerProbe(c: Config, states: seq<State>, steps: seq<Step>, k: nat, i: nat)
    requires IsRun(c, states, steps) && k < |states| && i < |states[k].phases|
    ensures var s := states[k];
      && (s.phases[i].Published? <==> exists j :: 0 <= j < |s.results| && s.results[j].0 == i)
      && (forall a, b :: 0 <= a < |s.results| && 0 <= b < |s.results| && s.results[a].0 == s.results[b].0 ==> a == b)
      && (forall j :: 0 <= j < |s.results| && s.results[j].0 == i ==>
            s.phases[i].Published? && s.results[j].1 == s.phases[i].r)
  {
    InvRun(c, states, steps, k);
    var s := states[k];
    if s.phases[i].Published? {
      assert HasResult(s.results, i);
    }
  }
}

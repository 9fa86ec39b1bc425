/** Accounting over every run: each probe ends in one counter and one published result. */
module CountRuns {
  import opened Collections
  import opened Sessions
  import opened Waiting
  import opened Protocol
  import opened WireRuns

  predicate InFlight(ph: Phase)
  {
    ph.Registered? || ph.Sending? || ph.Awaiting?
  }

  predicate EndedWith(ph: Phase, status: Status)
  {
    (ph.Concluded? || ph.Published?) && ph.r.status == status
  }

  predicate EndedOk(ph: Phase) { EndedWith(ph, OK) }

  predicate EndedTimeout(ph: Phase) { EndedWith(ph, TIMEOUT) }

  predicate EndedError(ph: Phase) { EndedWith(ph, ERROR) }

  /** The counters say how every created session's probe ended or that it is still in flight. */
  ghost predicate CountInv(phases: seq<Phase>, st: Stats)
  {
    && st.created == st.ok + st.timeouts + st.failed + st.noQueue + Count(phases, InFlight)
    && st.ok == Count(phases, EndedOk)
    && st.timeouts == Count(phases, EndedTimeout)
    && st.failed + st.noQueue == Count(phases, EndedError)
  }

  function Tally(b: bool): nat
  {
    if b then 1 else 0
  }

  /** A step of a call moves the call and its counter together. */
  lemma CountDelta(c: Config, now: int, ph: Phase, net: Net, o: Session, a: Action, st: Stats)
    requires InPlace(ph, net, o, a)
    ensures var ph', st' := NextPhase(c, now, ph, net, o, a), NextStats(st, a);
      && st'.ok - st.ok == Tally(EndedOk(ph')) - Tally(EndedOk(ph))
      && st'.timeouts - st.timeouts == Tally(EndedTimeout(ph')) - Tally(EndedTimeout(ph))
      && st'.failed + st'.noQueue - st.failed - st.noQueue == Tally(EndedError(ph')) - Tally(EndedError(ph))
      && (st'.created - st.created) + Tally(InFlight(ph)) - Tally(InFlight(ph'))
         == (st'.ok - st.ok) + (st'.timeouts - st.timeouts) + (st'.failed - st.failed) + (st'.noQueue - st.noQueue)
  {
  }

  lemma CountCall(c: Config, s: State, i: nat, a: Action)
    requires CountInv(s.phases, s.stats) && Enabled(s, Call(i, a))
    ensures CountInv(AfterCall(c, s, i, a).phases, AfterCall(c, s, i, a).stats)
  {
    var ph := NextPhase(c, s.now, s.phases[i], s.nets[i], s.table.objs[i], a);
    CountDelta(c, s.now, s.phases[i], s.nets[i], s.table.objs[i], a, s.stats);
    CountUpdate(s.phases, i, ph, InFlight);
    CountUpdate(s.phases, i, ph, EndedOk);
    CountUpdate(s.phases, i, ph, EndedTimeout);
    CountUpdate(s.phases, i, ph, EndedError);
  }

  lemma CountStart(phases: seq<Phase>, st: Stats)
    requires CountInv(phases, st)
    ensures CountInv(phases + [Allocated], st)
  {
    CountAppend(phases, Allocated, InFlight);
    CountAppend(phases, Allocated, EndedOk);
    CountAppend(phases, Allocated, EndedTimeout);
    CountAppend(phases, Allocated, EndedError);
  }

  /** The counters of calls move only with steps of calls. */
  lemma CountFrame(c: Config, s: State, st: Step)
    requires Enabled(s, st) && !st.Start? && !st.Call?
    ensures var s' := Apply(c, s, st);
      && s'.phases == s.phases && s'.results == s.results && s'.stats.created == s.stats.created
      && s'.stats.ok == s.stats.ok && s'.stats.timeouts == s.stats.timeouts
      && s'.stats.failed == s.stats.failed && s'.stats.noQueue == s.stats.noQueue
  {
  }

  lemma CountStep(c: Config, s: State, st: Step)
    requires CountInv(s.phases, s.stats) && Enabled(s, st)
    ensures CountInv(Apply(c, s, st).phases, Apply(c, s, st).stats)
  {
    if st.Start? {
      CountStart(s.phases, s.stats);
    } else if st.Call? {
      CountCall(c, s, st.i, st.a);
    } else {
      CountFrame(c, s, st);
    }
  }

  // ---------- published results ----------

  /** The published results and the calls that have published correspond one to one. */
  ghost predicate PubInv(phases: seq<Phase>, results: seq<(nat, Result)>)
  {
    && (forall j :: 0 <= j < |results| ==>
          results[j].0 < |phases| && phases[results[j].0].Published? && phases[results[j].0].r == results[j].1)
    && (forall j, k :: 0 <= j < k < |results| ==> results[j].0 != results[k].0)
    && (forall i :: 0 <= i < |phases| && phases[i].Published? ==> HasResult(results, i))
  }

  ghost predicate HasResult(results: seq<(nat, Result)>, i: nat)
  {
    exists j :: 0 <= j < |results| && results[j].0 == i
  }

  lemma PubCall(c: Config, s: State, i: nat, a: Action)
    requires PubInv(s.phases, s.results) && Enabled(s, Call(i, a))
    ensures PubInv(AfterCall(c, s, i, a).phases, AfterCall(c, s, i, a).results)
  {
    var s' := AfterCall(c, s, i, a);
    assert forall j :: 0 <= j < |s.results| ==> s.results[j].0 != i;
    forall k | 0 <= k < |s'.phases| && s'.phases[k].Published? ensures HasResult(s'.results, k) {
      if k == i {
        assert s'.results[|s.results|].0 == i;
      } else {
        assert HasResult(s.results, k);
        var j :| 0 <= j < |s.results| && s.results[j].0 == k;
        assert s'.results[j].0 == k;
      }
    }
  }

  lemma PubStart(phases: seq<Phase>, results: seq<(nat, Result)>)
    requires PubInv(phases, results)
    ensures PubInv(phases + [Allocated], results)
  {
    var phases' := phases + [Allocated];
    assert forall i :: 0 <= i < |phases| ==> phases'[i] == phases[i];
  }

  lemma PubStep(c: Config, s: State, st: Step)
    requires PubInv(s.phases, s.results) && Enabled(s, st)
    ensures PubInv(Apply(c, s, st).phases, Apply(c, s, st).results)
  {
    if st.Start? {
      PubStart(s.phases, s.results);
    } else if st.Call? {
      PubCall(c, s, st.i, st.a);
    } else {
      CountFrame(c, s, st);
    }
  }

  // ---------- ACKs sent ----------

  /** ACKs still owed by a responder for one probe it accepted. */
  function Owed(j: Job): nat
  {
    if j.t4.None? then 2 else if j.second.None? then 1 else 0
  }

  ghost function TotalOwed(jobs: map<nat, Job>): nat
  {
    if jobs == map[] then 0
    else
      var n :| n in jobs;
      Owed(jobs[n]) + TotalOwed(jobs - {n})
  }

  lemma {:induction false} OwedWithout(jobs: map<nat, Job>, n: nat)
    requires n in jobs
    ensures TotalOwed(jobs) == Owed(jobs[n]) + TotalOwed(jobs - {n})
    decreases |jobs|
  {
    var m :| m in jobs && TotalOwed(jobs) == Owed(jobs[m]) + TotalOwed(jobs - {m});
    if m != n {
      OwedWithout(jobs - {m}, n);
      OwedWithout(jobs - {n}, m);
      assert jobs - {m} - {n} == jobs - {n} - {m};
    }
  }

  lemma OwedUpdate(jobs: map<nat, Job>, n: nat, j: Job)
    ensures TotalOwed(jobs[n := j]) == Owed(j) + TotalOwed(jobs - {n})
    ensures n !in jobs ==> TotalOwed(jobs[n := j]) == Owed(j) + TotalOwed(jobs)
  {
    OwedWithout(jobs[n := j], n);
    assert jobs[n := j] - {n} == jobs - {n};
    if n !in jobs {
      assert jobs - {n} == jobs;
    }
  }

  /** Each probe received allows two ACKs, and nothing else allows any. */
  ghost predicate AckInv(s: State)
  {
    s.stats.acksSent + TotalOwed(s.wire.jobs) <= 2 * s.stats.probesReceived
  }

  lemma AckSend(jobs: map<nat, Job>, n: nat, j: Job)
    requires n in jobs && Owed(jobs[n]) > Owed(j)
    ensures TotalOwed(jobs) > TotalOwed(jobs[n := j])
  {
    OwedWithout(jobs, n);
    OwedUpdate(jobs, n, j);
  }

  lemma AckStep(c: Config, s: State, st: Step)
    requires AirIsNew(s.wire) && AckInv(s) && Enabled(s, st)
    ensures AckInv(Apply(c, s, st))
  {
    var jobs := s.wire.jobs;
    match st {
      case RecvProbe(p, valid) => OwedUpdate(jobs, p.num, Job(p, s.now, None, None));
      case SendAck1(n) => AckSend(jobs, n, jobs[n].(t4 := Some(s.now)));
      case SendAck2(n) => AckSend(jobs, n, jobs[n].(second := Some(s.now)));
      case _ => JobsFrame(c, s, st);
    }
  }
}

/** What single steps of a run do, field by field: new sessions, delivered and taken ACKs, the map operations, and which
    steps each counter counts. */
module Effects {
  import opened Collections
  import opened Sessions
  import opened Waiting
  import opened Protocol
  import opened ProtocolTheorems

  /** A started probe gets the next number and a fresh session; the maps and the other sessions stay. */
  ghost predicate Started(s: State, st: Step, s': State)
    requires st.Start?
  {
    var i := |s.table.objs|;
    && |s'.table.objs| == i + 1 && s'.table.objs[..i] == s.table.objs
    && Fresh(s'.table.objs[i], i + 1, st.src, st.tgt, st.flowLabel, s.now)
    && s'.table.sessions == s.table.sessions && s'.table.index == s.table.index
    && |s'.phases| == |s.phases| + 1 && s'.phases[|s.phases|].Allocated?
    && |s'.nets| == |s.nets| + 1 && s'.nets[|s.nets|] == Net(st.route, false, None, None)
  }

  lemma StartOverRuns(c: Config, states: seq<State>, steps: seq<Step>, k: nat)
    requires IsRun(c, states, steps) && k < |steps| && steps[k].Start?
    ensures Started(states[k], steps[k], states[k + 1])
  {
    var s, st := RunStep(c, states, steps, k);
    NewIsFresh(|s.table.objs| + 1, st.src, st.tgt, st.flowLabel, s.now);
  }

  /** A handled ACK changes the session it was handed to, as one non-blocking send, and no other. */
  ghost predicate Handled(c: Config, s: State, st: Step, s': State)
    requires st.HandleAck?
  {
    var t, t', ev := s.table, s'.table, Event(st.frame.pkt, st.arrived + c.clock(st.frame.to));
    && t'.sessions == t.sessions && t'.index == t.index && |t'.objs| == |t.objs| && s'.phases == s.phases
    && (st.found.None? ==> t'.objs == t.objs)
    && (st.found.Some? ==>
          && st.found.value < |t.objs| && HandedTo(t.objs[st.found.value], t'.objs[st.found.value], ev, st.statusOk)
          && forall j :: 0 <= j < |t.objs| && j != st.found.value ==> t'.objs[j] == t.objs[j])
  }

  lemma HandleOverRuns(c: Config, states: seq<State>, steps: seq<Step>, k: nat)
    requires IsRun(c, states, steps) && k < |steps| && steps[k].HandleAck?
    ensures Handled(c, states[k], steps[k], states[k + 1])
  {
    var s, st := RunStep(c, states, steps, k);
    if st.found.Some? {
      var ev := Event(st.frame.pkt, st.arrived + c.clock(st.frame.to));
      DeliveredIsHanded(s.table.objs[st.found.value], ev, st.statusOk);
    }
  }

  /** The call keeps the first event of each kind, and T5 is the receive time of the first of all. */
  ghost predicate WaitTook(w: Wait, w': Wait, ev: Event, second: bool)
  {
    && w'.ack1 == (if !second && w.ack1.None? then Some(ev) else w.ack1)
    && w'.ack2 == (if second && w.ack2.None? then Some(ev) else w.ack2)
    && w'.t5 == (if w.ack1.None? && w.ack2.None? then Some(ev.receivedAt) else w.t5)
  }

  /** Taking an ACK empties its channel, leaves the other alone and hands the event to the call. */
  ghost predicate Took(s: State, i: nat, second: bool, s': State)
    requires InRange(s, i) && InRange(s', i)
  {
    var o, o', slot := s.table.objs[i], s'.table.objs[i], if second then s.table.objs[i].ack2 else s.table.objs[i].ack1;
    && slot.Some? && o' == (if second then o.(ack2 := None) else o.(ack1 := None))
    && s'.table.sessions == s.table.sessions && s'.table.index == s.table.index
    && s.phases[i].Awaiting? && s'.phases[i].Awaiting?
    && s'.phases[i].t1 == s.phases[i].t1 && s'.phases[i].t2 == s.phases[i].t2
    && WaitTook(s.phases[i].w, s'.phases[i].w, slot.value, second)
    && forall j :: 0 <= j < |s.phases| && j != i && InRange(s, j) && InRange(s', j) ==>
         s'.table.objs[j] == s.table.objs[j] && s'.phases[j] == s.phases[j]
  }

  lemma TakeOverRuns(c: Config, states: seq<State>, steps: seq<Step>, k: nat, i: nat)
    requires IsRun(c, states, steps) && k < |steps|
    requires steps[k] == Call(i, TakeAck1) || steps[k] == Call(i, TakeAck2)
    ensures InRange(states[k], i) && InRange(states[k + 1], i)
    ensures Took(states[k], i, steps[k] == Call(i, TakeAck2), states[k + 1])
  {
    var s, st := RunStep(c, states, steps, k);
  }

  /** What a call that gives up concludes: without a queue or a sent packet an error with no timestamps, later an error
      or, when its context ended, a timeout with T1, T2 and, if an ACK was taken, T5. */
  ghost predicate GivesUp(ph: Phase, a: Action, ph': Phase)
    requires a.NoQueue? || a.SendFails? || ((a.Expire? || a.SeeClosed?) && ph.Awaiting?)
  {
    && ph'.Concluded?
    && (a.NoQueue? || a.SendFails? ==> Unfinished(ph'.r, ERROR, None, None, None))
    && (a.Expire? ==> Unfinished(ph'.r, TIMEOUT, Some(ph.t1), Some(ph.t2), ph.w.t5))
    && (a.SeeClosed? ==> Unfinished(ph'.r, ERROR, Some(ph.t1), Some(ph.t2), ph.w.t5))
  }

  predicate IsGivingUp(a: Action)
  {
    a.NoQueue? || a.SendFails? || a.Expire? || a.SeeClosed?
  }

  lemma GiveUpOverRuns(c: Config, states: seq<State>, steps: seq<Step>, k: nat, i: nat, a: Action)
    requires IsRun(c, states, steps) && k < |steps| && steps[k] == Call(i, a) && IsGivingUp(a)
    ensures InRange(states[k], i) && InRange(states[k + 1], i)
    ensures a.Expire? || a.SeeClosed? ==> states[k].phases[i].Awaiting?
    ensures GivesUp(states[k].phases[i], a, states[k + 1].phases[i])
  {
    var s, st := RunStep(c, states, steps, k);
  }

  /** Publishing appends the call's own result to what was published, and nothing else does. */
  lemma PublishOverRuns(c: Config, states: seq<State>, steps: seq<Step>, k: nat)
    requires IsRun(c, states, steps) && k < |steps|
    ensures if steps[k].Call? && steps[k].a.Publish? then
              && InRange(states[k], steps[k].i) && states[k].phases[steps[k].i].Concluded?
              && states[k + 1].results == states[k].results + [(steps[k].i, states[k].phases[steps[k].i].r)]
              && states[k + 1].outbox.pending == states[k].outbox.pending + 1
            else states[k + 1].results == states[k].results
  {
    var s, st := RunStep(c, states, steps, k);
  }

  /** What the steps of addSession, of a remover and of Close do to the two maps and to session i. */
  ghost predicate TableStep(t: Table, st: Step, t': Table, i: nat)
    requires i < |t.objs|
  {
    var key := t.objs[i].id.key;
    && |t'.objs| == |t.objs|
    && (forall j :: 0 <= j < |t.objs| && j != i ==> t'.objs[j] == t.objs[j])
    && t'.sessions == (if st == Call(i, Store) then t.sessions[key := i]
                       else if st == UnlinkOne(i) || st == ShutDelete(i) then t.sessions - {key}
                       else t.sessions)
    && t'.index == (if st == Call(i, Index) then t.index[t.objs[i].id.num := key]
                    else if st == DropOne(i) then t.index - {t.objs[i].id.num}
                    else t.index)
    && (if st == CloseOne(i) || st == ShutClose(i) then ClosedFrom(t.objs[i], t'.objs[i]) else t'.objs[i] == t.objs[i])
  }

  predicate ChangesTable(st: Step, i: nat)
  {
    || st == Call(i, Store) || st == Call(i, Index)
    || st == UnlinkOne(i) || st == DropOne(i) || st == CloseOne(i) || st == ShutClose(i) || st == ShutDelete(i)
  }

  lemma TableOfStep(c: Config, s: State, st: Step, i: nat)
    requires Enabled(s, st) && ChangesTable(st, i) && i < |s.table.objs|
    ensures TableStep(s.table, st, Apply(c, s, st).table, i)
  {
    ClosedCloses(s.table.objs[i]);
  }

  lemma TableStepsOverRuns(c: Config, states: seq<State>, steps: seq<Step>, k: nat, i: nat)
    requires IsRun(c, states, steps) && k < |steps| && ChangesTable(steps[k], i) && i < |states[k].table.objs|
    ensures TableStep(states[k].table, steps[k], states[k + 1].table, i)
  {
    var s, st := RunStep(c, states, steps, k);
    TableOfStep(c, s, st, i);
  }

  /** A session whose call has published, or that is older than five minutes, can be removed in three steps, after which
      the table is as removeSession leaves it. */
  lemma RemovalLeads(c: Config, s: State, i: nat) returns (s': State)
    requires InRange(s, i) && TableInv(s.table) && Live(s.table, i)
    requires s.phases[i].Published? || s.now - s.table.objs[i].id.created > 300_000_000_000
    requires i !in s.dropping && i !in s.closing
    ensures Leads(c, s, [UnlinkOne(i)] + ([DropOne(i)] + ([CloseOne(i)] + [])), s')
    ensures s'.table == Removed(s.table, {i}) && s'.dropping == s.dropping && s'.closing == s.closing
  {
    var s1 := s.(table := Unlink(s.table, i), dropping := s.dropping + {i});
    var s2 := s1.(table := DropIndex(s1.table, i), dropping := s.dropping, closing := s.closing + {i});
    s' := s2.(table := CloseOnce(s2.table, i), closing := s.closing);
    assert s1.dropping - {i} == s.dropping && s2.closing - {i} == s.closing;
    LeadsFirst(c, s2, CloseOne(i), [], s');
    LeadsFirst(c, s1, DropOne(i), [CloseOne(i)] + [], s');
    LeadsFirst(c, s, UnlinkOne(i), [DropOne(i)] + ([CloseOne(i)] + []), s');
    RemovedIsThreeSteps(s.table, i);
  }

  // ---------- counters ----------

  predicate Creates(st: Step) { st.Call? && st.a.Index? }

  predicate Succeeds(st: Step) { st.Call? && st.a.Finish? }

  predicate TimesOut(st: Step) { st.Call? && st.a.Expire? }

  /** A failed send or a prematurely closed session. */
  predicate Fails(st: Step) { st.Call? && (st.a.SendFails? || st.a.SeeClosed?) }

  predicate LacksQueue(st: Step) { st.Call? && st.a.NoQueue? }

  predicate FindsSession(st: Step) { st.HandleAck? && st.found.Some? }

  predicate FindsNone(st: Step) { st.HandleAck? && st.found.None? }

  predicate TakesProbe(st: Step) { st.RecvProbe? }

  predicate SendsAck(st: Step) { st.SendAck1? || st.SendAck2? }

  function One(b: bool): nat
  {
    if b then 1 else 0
  }

  /** Every counter of calls moves by one with exactly its own steps. */
  lemma CallCounters(c: Config, s: State, st: Step)
    requires Enabled(s, st)
    ensures var x, y := s.stats, Apply(c, s, st).stats;
      && y.created == x.created + One(Creates(st)) && y.ok == x.ok + One(Succeeds(st))
      && y.timeouts == x.timeouts + One(TimesOut(st)) && y.failed == x.failed + One(Fails(st))
      && y.noQueue == x.noQueue + One(LacksQueue(st))
  {
  }

  /** So does every counter of packets. */
  lemma PacketCounters(c: Config, s: State, st: Step)
    requires Enabled(s, st)
    ensures var x, y := s.stats, Apply(c, s, st).stats;
      && y.byFlow + y.bySeq == x.byFlow + x.bySeq + One(FindsSession(st))
      && y.notFound == x.notFound + One(FindsNone(st))
      && y.probesReceived == x.probesReceived + One(TakesProbe(st)) && y.acksSent == x.acksSent + One(SendsAck(st))
  {
  }

  /** The counters are the numbers of steps of their kind. */
  ghost predicate CountsOf(x: Stats, steps: seq<Step>)
  {
    && x.created == Count(steps, Creates) && x.ok == Count(steps, Succeeds)
    && x.timeouts == Count(steps, TimesOut) && x.failed == Count(steps, Fails)
    && x.noQueue == Count(steps, LacksQueue)
    && x.byFlow + x.bySeq == Count(steps, FindsSession) && x.notFound == Count(steps, FindsNone)
    && x.probesReceived == Count(steps, TakesProbe) && x.acksSent == Count(steps, SendsAck)
  }

  lemma CountNext(x: Stats, steps: seq<Step>, st: Step, y: Stats)
    requires CountsOf(x, steps)
    requires y.created == x.created + One(Creates(st)) && y.ok == x.ok + One(Succeeds(st))
    requires y.timeouts == x.timeouts + One(TimesOut(st)) && y.failed == x.failed + One(Fails(st))
    requires y.noQueue == x.noQueue + One(LacksQueue(st))
    requires y.byFlow + y.bySeq == x.byFlow + x.bySeq + One(FindsSession(st))
    requires y.notFound == x.notFound + One(FindsNone(st))
    requires y.probesReceived == x.probesReceived + One(TakesProbe(st)) && y.acksSent == x.acksSent + One(SendsAck(st))
    ensures CountsOf(y, steps + [st])
  {
    CountAppend(steps, st, Creates);
    CountAppend(steps, st, Succeeds);
    CountAppend(steps, st, TimesOut);
    CountAppend(steps, st, Fails);
    CountAppend(steps, st, LacksQueue);
    CountAppend(steps, st, FindsSession);
    CountAppend(steps, st, FindsNone);
    CountAppend(steps, st, TakesProbe);
    CountAppend(steps, st, SendsAck);
  }

  /** In every state of every run each counter is the number of steps of its kind so far. */
  lemma {:induction false} CountersOverRuns(c: Config, states: seq<State>, steps: seq<Step>, k: nat)
    requires IsRun(c, states, steps) && k < |states|
    ensures CountsOf(states[k].stats, steps[..k])
  {
    if k == 0 {
      NothingCounted();
      assert steps[..0] == [];
    } else {
      CountersOverRuns(c, states, steps, k - 1);
      var s, st := RunStep(c, states, steps, k - 1);
      CallCounters(c, s, st);
      PacketCounters(c, s, st);
      CountNext(s.stats, steps[..k - 1], st, states[k].stats);
      assert steps[..k] == steps[..k - 1] + [st];
    }
  }

  lemma NothingCounted()
    ensures CountsOf(INITIAL.stats, [])
  {
    var none: seq<Step> := [];
    assert forall p: Step -> bool :: Count(none, p) == 0;
  }

  /** A handled ACK is counted as found by label exactly if the session it is handed to has the label seen. */
  lemma FoundByLabel(c: Config, states: seq<State>, steps: seq<Step>, k: nat)
    requires IsRun(c, states, steps) && k < |steps| && steps[k].HandleAck? && steps[k].found.Some?
    ensures var i := steps[k].found.value;
      && i < |states[k].table.objs|
      && states[k + 1].stats.byFlow
         == states[k].stats.byFlow + One(states[k].table.objs[i].id.flow == steps[k].seenFlow)
  {
    var s, st := RunStep(c, states, steps, k);
  }
}

/** How calls end: no call goes back, each takes at most eight steps that bring it closer to its result, and exactly
    when a call can take no step of its own. */
module Progress {
  import opened Collections
  import opened Sessions
  import opened Waiting
  import opened Protocol

  /** How many of its own steps a call has left at most, not counting repeated ACKs it throws away. */
  function Rank(ph: Phase): nat
  {
    match ph
    case Allocated => 8
    case Stored => 7
    case Registered => 6
    case Sending(_) => 5
    case Awaiting(_, _, w) => 2 + (if w.ack1.Some? then 0 else 1) + (if w.ack2.Some? then 0 else 1)
    case Concluded(_, _) => 1
    case Published(_, _) => 0
  }

  /** A step of the call brings it closer to its result, unless it takes an ACK of a type it already has. */
  lemma CallAdvances(c: Config, now: int, ph: Phase, net: Net, o: Session, a: Action)
    requires InPlace(ph, net, o, a)
    ensures var ph' := NextPhase(c, now, ph, net, o, a);
      Rank(ph') < Rank(ph)
      || (ph' == ph && ((a.TakeAck1? && ph.w.ack1.Some?) || (a.TakeAck2? && ph.w.ack2.Some?)))
  {
  }

  /** No step of the system sets a call back. */
  lemma NeverBack(c: Config, s: State, st: Step, i: nat)
    requires Enabled(s, st) && i < |s.phases|
    ensures i < |Apply(c, s, st).phases| && Rank(Apply(c, s, st).phases[i]) <= Rank(s.phases[i])
  {
    if st.Call? {
      CallAdvances(c, s.now, s.phases[st.i], s.nets[st.i], s.table.objs[st.i], st.a);
    }
  }

  /** The call's rank, and the full rank before it has started. */
  function RankIn(s: State, i: nat): nat
  {
    if i < |s.phases| then Rank(s.phases[i]) else 8
  }

  lemma RankStep(c: Config, s: State, st: Step, i: nat)
    requires Enabled(s, st)
    ensures RankIn(Apply(c, s, st), i) <= RankIn(s, i)
  {
    if i < |s.phases| {
      NeverBack(c, s, st, i);
    }
  }

  /** How many of the first n steps of a run brought call i closer to its result. */
  ghost function Advances(states: seq<State>, i: nat, n: nat): nat
    requires n < |states|
  {
    if n == 0 then 0
    else Advances(states, i, n - 1) + (if RankIn(states[n], i) < RankIn(states[n - 1], i) then 1 else 0)
  }

  /** In every run a call takes at most eight steps that bring it closer to its result, and as many fewer as its
      rank says; every other step of its own throws a repeated ACK away. */
  lemma {:induction false} AtMostEight(c: Config, states: seq<State>, steps: seq<Step>, i: nat, n: nat)
    requires IsRun(c, states, steps) && n < |states|
    ensures Advances(states, i, n) + RankIn(states[n], i) <= 8
  {
    if n > 0 {
      AtMostEight(c, states, steps, i, n - 1);
      RankStep(c, states[n - 1], steps[n - 1], i);
    }
  }

  /** Call i can take no step of its own. */
  ghost predicate Stuck(s: State, i: nat)
  {
    forall a: Action :: !Ready(s, i, a)
  }

  /** Waiting for something outside: the send's completion, or an ACK, before the context ends. */
  predicate Waits(s: State, i: nat)
    requires InRange(s, i)
  {
    var ph, net, o := s.phases[i], s.nets[i], s.table.objs[i];
    && s.now < net.route.deadline
    && (|| (ph.Sending? && net.departed.None? && !net.broken)
        || (ph.Awaiting? && !BothReceived(ph.w) && o.ack1.None? && o.ack2.None? && !o.closed))
  }

  /** The result is there but the results channel is full, or closed by Close. */
  predicate Blocked(s: State, i: nat)
    requires InRange(s, i)
  {
    s.phases[i].Concluded? && !HasRoom(s.outbox)
  }

  /** The step a call that neither waits nor is blocked can take. */
  function WayOut(s: State, i: nat): Action
    requires InRange(s, i) && !s.phases[i].Published?
  {
    var ph, net, o := s.phases[i], s.nets[i], s.table.objs[i];
    match ph
    case Allocated => Store
    case Stored => Index
    case Registered => if net.route.queue then Post else NoQueue
    case Sending(_) => if net.departed.Some? then SendReturns else SendFails
    case Awaiting(_, _, w) =>
      if BothReceived(w) then Finish
      else if s.now >= net.route.deadline then Expire
      else if o.ack1.Some? then TakeAck1
      else if o.ack2.Some? then TakeAck2
      else SeeClosed(false)
    case Concluded(_, _) => Publish
  }

  /** A posted send belongs to a call that has a queue. */
  ghost predicate QueueUsed(s: State)
  {
    && |s.phases| == |s.nets|
    && forall i :: 0 <= i < |s.phases| && s.phases[i].Sending? ==> s.nets[i].route.queue
  }

  lemma QueueUsedStep(c: Config, s: State, st: Step)
    requires QueueUsed(s) && Enabled(s, st)
    ensures QueueUsed(Apply(c, s, st))
  {
  }

  lemma {:induction false} QueueUsedRun(c: Config, states: seq<State>, steps: seq<Step>, k: nat)
    requires IsRun(c, states, steps) && k < |states|
    ensures QueueUsed(states[k])
  {
    if k > 0 {
      QueueUsedRun(c, states, steps, k - 1);
      QueueUsedStep(c, states[k - 1], steps[k - 1]);
    }
  }

  lemma WayOutReady(s: State, i: nat)
    requires InRange(s, i) && QueueUsed(s) && !s.phases[i].Published? && !Waits(s, i) && !Blocked(s, i)
    ensures Ready(s, i, WayOut(s, i))
  {
  }

  /** In every state of every run a call can take no step of its own if and only if it has published, or holds its
      result before a full or closed results channel, or waits for the network before its context ends. Once the
      context has ended only the first two are left. */
  lemma StuckIff(c: Config, states: seq<State>, steps: seq<Step>, k: nat, i: nat)
    requires IsRun(c, states, steps) && k < |states| && InRange(states[k], i)
    ensures var s := states[k];
      && (Stuck(s, i) <==> s.phases[i].Published? || Blocked(s, i) || Waits(s, i))
      && (s.now >= s.nets[i].route.deadline ==> (Stuck(s, i) <==> s.phases[i].Published? || Blocked(s, i)))
  {
    QueueUsedRun(c, states, steps, k);
    var s := states[k];
    if !s.phases[i].Published? && !Blocked(s, i) && !Waits(s, i) {
      WayOutReady(s, i);
    }
  }

  // ---------- reaching the result ----------

  /** The steps are all steps of call i. */
  ghost predicate Own(steps: seq<Step>, i: nat)
  {
    forall k :: 0 <= k < |steps| ==> steps[k].Call? && steps[k].i == i
  }

  /** Some steps of its own, at most as many as its rank, lead the call to its published result. */
  ghost predicate CanPublish(c: Config, s: State, i: nat)
  {
    exists steps, s' :: Leads(c, s, steps, s') && Own(steps, i) && |steps| <= RankIn(s, i)
                        && i < |s'.phases| && s'.phases[i].Published?
  }

  lemma {:induction false} OwnStepsPublish(c: Config, s: State, i: nat) returns (steps: seq<Step>, s': State)
    requires InRange(s, i) && QueueUsed(s) && HasRoom(s.outbox) && s.now >= s.nets[i].route.deadline
    ensures Leads(c, s, steps, s') && Own(steps, i) && |steps| <= RankIn(s, i)
    ensures i < |s'.phases| && s'.phases[i].Published?
    decreases Rank(s.phases[i])
  {
    if s.phases[i].Published? {
      steps, s' := [], s;
    } else {
      var a := WayOut(s, i);
      WayOutReady(s, i);
      var s1 := AfterCall(c, s, i, a);
      CallAdvances(c, s.now, s.phases[i], s.nets[i], s.table.objs[i], a);
      if s.phases[i].Concluded? {
        steps, s' := [], s1;
      } else {
        QueueUsedStep(c, s, Call(i, a));
        steps, s' := OwnStepsPublish(c, s1, i);
      }
      CallFirst(c, s, i, a, steps, s');
      steps := [Call(i, a)] + steps;
    }
  }

  /** Without room no steps of its own publish. */
  lemma {:induction false} NoRoomNoResult(c: Config, s: State, i: nat, steps: seq<Step>, s': State)
    requires Leads(c, s, steps, s') && Own(steps, i) && !HasRoom(s.outbox)
    requires i < |s.phases| && !s.phases[i].Published?
    ensures i < |s'.phases| && !s'.phases[i].Published?
    decreases |steps|
  {
    if steps != [] {
      NoRoomNoResult(c, Apply(c, s, steps[0]), i, steps[1..], s');
    }
  }

  /** In every run, a call whose context has ended can reach its published result by its own steps, within its rank,
      if and only if it has done so already or the results channel is open and has room. */
  lemma PublishesIff(c: Config, states: seq<State>, steps: seq<Step>, k: nat, i: nat)
    requires IsRun(c, states, steps) && k < |states| && InRange(states[k], i)
    requires states[k].now >= states[k].nets[i].route.deadline
    ensures CanPublish(c, states[k], i) <==> states[k].phases[i].Published? || HasRoom(states[k].outbox)
  {
    var s := states[k];
    QueueUsedRun(c, states, steps, k);
    if s.phases[i].Published? {
      assert Leads(c, s, [], s) && Own([], i);
    } else if HasRoom(s.outbox) {
      var own, s' := OwnStepsPublish(c, s, i);
    } else if CanPublish(c, s, i) {
      var own, s' :| Leads(c, s, own, s') && Own(own, i) && |own| <= RankIn(s, i)
                     && i < |s'.phases| && s'.phases[i].Published?;
      NoRoomNoResult(c, s, i, own, s');
    }
  }

  // ---------- the results channel ----------

  /** The channel never holds more than its capacity nor more than was published. */
  ghost predicate OutboxOk(s: State)
  {
    s.outbox.pending <= RESULT_CAPACITY && s.outbox.pending <= |s.results| && (s.outbox.closed ==> s.shut)
  }

  lemma {:induction false} OutboxOverRuns(c: Config, states: seq<State>, steps: seq<Step>, k: nat)
    requires IsRun(c, states, steps) && k < |states|
    ensures OutboxOk(states[k]) && states[k].outbox.pending <= 1000
  {
    if k > 0 {
      OutboxOverRuns(c, states, steps, k - 1);
      OutboxStep(c, states[k - 1], steps[k - 1]);
    }
  }

  lemma OutboxStep(c: Config, s: State, st: Step)
    requires OutboxOk(s) && Enabled(s, st)
    ensures OutboxOk(Apply(c, s, st))
  {
  }
}

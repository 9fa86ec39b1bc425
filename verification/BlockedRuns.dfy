/** Whole runs in which a probe is left with a result it cannot publish: Close has closed the results channel, or nobody
    has emptied it. */
module BlockedRuns {
  import opened Sessions
  import opened Protocol
  import opened Progress
  import opened SharedLabelRun

  /** A further probe finds no sender queue and holds its result. */
  lemma ConcludeOne(c: Config, s: State) returns (steps: seq<Step>, s': State)
    requires Aligned(s)
    ensures Leads(c, s, steps, s') && Aligned(s') && |s'.phases| == |s.phases| + 1 && s'.phases[|s.phases|].Concluded?
    ensures s'.outbox == s.outbox && s'.shut == s.shut
  {
    var i := |s.phases|;
    var s1 := WithSession(s, "src", "dst", 0, false);
    steps := AddOne(c, s, "src", "dst", 0, false);
    s' := AfterCall(c, s1, i, NoQueue);
    CallFirst(c, s1, i, NoQueue, [], s');
    LeadsOn(c, s, steps, s1, [Call(i, NoQueue)] + [], s');
    steps := steps + ([Call(i, NoQueue)] + []);
  }

  lemma PublishOne(c: Config, s: State) returns (steps: seq<Step>, s': State)
    requires Aligned(s) && HasRoom(s.outbox)
    ensures Leads(c, s, steps, s') && Aligned(s') && s'.shut == s.shut
    ensures s'.outbox == Outbox(s.outbox.pending + 1, false)
  {
    var i := |s.phases|;
    var s1;
    steps, s1 := ConcludeOne(c, s);
    s' := AfterCall(c, s1, i, Publish);
    CallFirst(c, s1, i, Publish, [], s');
    LeadsOn(c, s, steps, s1, [Call(i, Publish)] + [], s');
    steps := steps + ([Call(i, Publish)] + []);
  }

  /** The results channel fills up when nobody reads it. */
  lemma {:induction false} FillUp(c: Config, n: nat) returns (steps: seq<Step>, s: State)
    requires n <= RESULT_CAPACITY
    ensures Leads(c, INITIAL, steps, s) && Aligned(s) && s.outbox == Outbox(n, false) && !s.shut
  {
    if n == 0 {
      steps, s := [], INITIAL;
    } else {
      var more, s1;
      steps, s1 := FillUp(c, n - 1);
      more, s := PublishOne(c, s1);
      LeadsOn(c, INITIAL, steps, s1, more, s);
      steps := steps + more;
    }
  }

  /** The last call of the run holds its result and can do nothing with it. */
  ghost predicate EndsBlocked(c: Config, states: seq<State>, steps: seq<Step>, i: nat)
  {
    && IsRun(c, states, steps)
    && InRange(states[|steps|], i) && Blocked(states[|steps|], i) && Stuck(states[|steps|], i)
  }

  lemma RunEndsBlocked(c: Config, steps: seq<Step>, s: State, i: nat) returns (states: seq<State>)
    requires Leads(c, INITIAL, steps, s) && InRange(s, i) && Blocked(s, i)
    ensures EndsBlocked(c, states, steps, i) && states[|steps|] == s
  {
    states := LeadsPath(c, INITIAL, steps, s);
    StuckIff(c, states, steps, |steps|, i);
  }

  /** A run in which 1000 results wait unread and the next probe is stuck although Close has not begun. */
  lemma FullChannelBlocks(c: Config) returns (states: seq<State>, steps: seq<Step>, i: nat)
    ensures EndsBlocked(c, states, steps, i)
    ensures states[|steps|].outbox == Outbox(1000, false) && !states[|steps|].shut
  {
    var s1, s, more;
    steps, s1 := FillUp(c, RESULT_CAPACITY);
    i := |s1.phases|;
    more, s := ConcludeOne(c, s1);
    LeadsOn(c, INITIAL, steps, s1, more, s);
    steps := steps + more;
    states := RunEndsBlocked(c, steps, s, i);
  }

  /** A run in which Close closes the empty results channel before a probe has published. */
  lemma ClosedChannelBlocks(c: Config) returns (states: seq<State>, steps: seq<Step>)
    ensures EndsBlocked(c, states, steps, 0)
    ensures states[|steps|].outbox == Outbox(0, true)
  {
    var s1;
    steps, s1 := ConcludeOne(c, INITIAL);
    var s2 := s1.(shut := true);
    var s := s2.(outbox := Outbox(0, true));
    LeadsFirst(c, s2, ShutResults, [], s);
    LeadsFirst(c, s1, BeginClose, [ShutResults] + [], s);
    LeadsOn(c, INITIAL, steps, s1, [BeginClose] + ([ShutResults] + []), s);
    steps := steps + ([BeginClose] + ([ShutResults] + []));
    states := RunEndsBlocked(c, steps, s, 0);
  }
}

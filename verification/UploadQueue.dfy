/** The uploader's bounded retry queue on sequences: what one operation does and what holds over whole
    runs with one upload in flight. */
module UploadQueue {
  import opened Collections

  /** Path infos kept when a batch is put back. */
  const MAX_PATH_INFOS: nat := 100

  /** The queued results that stay when a batch is put back in front of them: all of them if both fit,
      else the newest ones that fit. */
  function KeptSuffix<T>(batch: seq<T>, queue: seq<T>, max: int): seq<T>
  {
    Newest(|batch|, queue, max)
  }

  /** The newest queued items that fit beside n others. */
  function Newest<T>(n: nat, queue: seq<T>, max: int): seq<T>
  {
    if n + |queue| > max then
      var toKeep := max - n;
      if toKeep > 0 then queue[|queue| - toKeep..] else []
    else queue
  }

  function Requeued<T>(batch: seq<T>, queue: seq<T>, max: int): seq<T>
  {
    batch + KeptSuffix(batch, queue, max)
  }

  /** Path infos: put back in front, then keep the first hundred. */
  function RequeuedPaths<T>(batch: seq<T>, queue: seq<T>): seq<T>
  {
    var all := batch + queue;
    if |all| > MAX_PATH_INFOS then all[..MAX_PATH_INFOS] else all
  }

  /** The number the code logs as dropped: the trimmed length minus what it wanted to keep. */
  function LoggedDropped<T>(batch: seq<T>, queue: seq<T>, max: int): int
  {
    |KeptSuffix(batch, queue, max)| - (max - |batch|)
  }

  /** Putting a batch back keeps the whole batch and the newest queued results; the queue ends at exactly
      min(batch + queue, max) if and only if the batch itself fits. */
  lemma RequeueBound<T>(batch: seq<T>, queue: seq<T>, max: int)
    ensures var q := Requeued(batch, queue, max);
      && q[..|batch|] == batch
      && (exists n: nat :: n <= |queue| && q[|batch|..] == queue[n..])
      && (|q| == (if |batch| + |queue| <= max then |batch| + |queue| else max)
          <==> |batch| <= max)
      && (|batch| > max ==> q == batch)
  {
    var q := Requeued(batch, queue, max);
    var n := |queue| - |KeptSuffix(batch, queue, max)|;
    assert q[..|batch|] == batch;
    assert q[|batch|..] == queue[n..];
  }

  /** Path infos after a failed upload: the first hundred of the batch followed by the queue. */
  lemma PathsBound<T>(batch: seq<T>, queue: seq<T>)
    ensures KeepsHundred(batch + queue, RequeuedPaths(batch, queue))
  {
  }

  ghost predicate KeepsHundred<T>(all: seq<T>, kept: seq<T>)
  {
    kept <= all && |kept| == (if |all| <= 100 then |all| else 100)
  }

  /** What putting a batch back leaves: the whole batch, then the newest queued results that fit, none if the batch
      alone fills the limit. */
  ghost predicate KeepsNewest<T>(batch: seq<T>, queue: seq<T>, max: int, kept: seq<T>)
  {
    && batch <= kept && IsSuffix(kept[|batch|..], queue)
    && |kept| == (if |batch| + |queue| <= max then |batch| + |queue| else if |batch| <= max then max else |batch|)
  }

  ghost predicate IsSuffix<T>(xs: seq<T>, ys: seq<T>)
  {
    |xs| <= |ys| && ys[|ys| - |xs|..] == xs
  }

  lemma RequeuedKeepsNewest<T>(batch: seq<T>, queue: seq<T>, max: int)
    ensures KeepsNewest(batch, queue, max, Requeued(batch, queue, max))
  {
    var q := Requeued(batch, queue, max);
    assert q[|batch|..] == KeptSuffix(batch, queue, max);
  }

  /** The logged count is right only when nothing could be kept and the batch's excess happens to equal the
      queue length; whenever part of the queue is kept it logs zero. */
  lemma LoggedDroppedIff<T>(batch: seq<T>, queue: seq<T>, max: int)
    requires |batch| + |queue| > max
    ensures LoggedDropped(batch, queue, max) == |queue| - |KeptSuffix(batch, queue, max)|
            <==> |batch| >= max && |queue| == |batch| - max
    ensures |batch| < max ==> LoggedDropped(batch, queue, max) == 0 < |queue| - |KeptSuffix(batch, queue, max)|
  {
  }

  // ---------- whole runs ----------

  /** The queue, the batch in flight, and what has happened so far: everything added, in order, what was
      acknowledged and what was dropped. */
  datatype State<T> = State(queue: seq<T>, batch: seq<T>, busy: bool, added: seq<T>, acked: seq<T>, dropped: seq<T>)

  datatype Step<T> =
    | Add(x: T)
    | Take(batchSize: nat)
    | Acknowledge
    | PutBack(max: int)
    | PutBackPaths

  predicate Enabled<T>(s: State<T>, st: Step<T>)
  {
    match st
    case Add(_) => true
    case Take(_) => !s.busy
    case _ => s.busy
  }

  function Taken<T>(queue: seq<T>, batchSize: nat): (r: (seq<T>, seq<T>))
    ensures r.0 + r.1 == queue && |r.0| == (if |queue| <= batchSize then |queue| else batchSize)
  {
    if |queue| > batchSize then (queue[..batchSize], queue[batchSize..]) else (queue, [])
  }

  function Apply<T>(s: State<T>, st: Step<T>): State<T>
    requires Enabled(s, st)
  {
    match st
    case Add(x) => s.(queue := s.queue + [x], added := s.added + [x])
    case Take(n) => s.(batch := Taken(s.queue, n).0, queue := Taken(s.queue, n).1, busy := true)
    case Acknowledge => s.(acked := s.acked + s.batch, batch := [], busy := false)
    case PutBack(max) =>
      var kept := KeptSuffix(s.batch, s.queue, max);
      s.(queue := Requeued(s.batch, s.queue, max), batch := [], busy := false,
         dropped := s.dropped + s.queue[..|s.queue| - |kept|])
    case PutBackPaths =>
      var all, kept := s.batch + s.queue, RequeuedPaths(s.batch, s.queue);
      s.(queue := kept, batch := [], busy := false, dropped := s.dropped + all[|kept|..])
  }

  /** A failed upload puts the results back: the whole batch in front of the newest queued results that fit. */
  ghost predicate PutsBack<T>(s: State<T>, s': State<T>, max: int)
  {
    && s.busy && s' == Apply(s, PutBack(max)) && !s'.busy && s'.batch == []
    && KeepsNewest(s.batch, s.queue, max, s'.queue)
  }

  /** A failed upload puts path infos back: the first hundred of the batch followed by the queue. */
  ghost predicate PutsBackPaths<T>(s: State<T>, s': State<T>)
  {
    && s.busy && s' == Apply(s, PutBackPaths) && !s'.busy && s'.batch == []
    && KeepsHundred(s.batch + s.queue, s'.queue)
  }

  lemma IsPutBack<T>(s: State<T>, s': State<T>, max: int)
    requires s.busy && s'.queue == Requeued(s.batch, s.queue, max) && s'.batch == [] && !s'.busy
    requires s'.added == s.added && s'.acked == s.acked
    requires s'.dropped == s.dropped + s.queue[..|s.queue| - |KeptSuffix(s.batch, s.queue, max)|]
    ensures PutsBack(s, s', max)
  {
    RequeuedKeepsNewest(s.batch, s.queue, max);
  }

  lemma IsPutBackPaths<T>(s: State<T>, s': State<T>)
    requires s.busy && s'.queue == RequeuedPaths(s.batch, s.queue) && s'.batch == [] && !s'.busy
    requires s'.added == s.added && s'.acked == s.acked
    requires s'.dropped == s.dropped + (s.batch + s.queue)[|s'.queue|..]
    ensures PutsBackPaths(s, s')
  {
    PathsBound(s.batch, s.queue);
  }

  ghost predicate IsRun<T>(states: seq<State<T>>, steps: seq<Step<T>>)
  {
    && |states| == |steps| + 1 && states[0] == State([], [], false, [], [], [])
    && forall k :: 0 <= k < |steps| ==> Enabled(states[k], steps[k]) && states[k + 1] == Apply(states[k], steps[k])
  }

  /** Everything still held or acknowledged, oldest first. */
  function Delivered<T>(s: State<T>): seq<T>
  {
    s.acked + s.batch + s.queue
  }

  /** Acknowledged, in flight, queued and dropped split what was added, and the first three, in that order,
      are a subsequence of the order of addition. */
  ghost predicate Inv<T>(s: State<T>)
  {
    && (!s.busy ==> s.batch == [])
    && multiset(s.added) == multiset(Delivered(s)) + multiset(s.dropped)
    && Subsequence(Delivered(s), s.added)
  }

  lemma StepAdd<T>(s: State<T>, x: T)
    requires Inv(s)
    ensures Inv(Apply(s, Add(x)))
  {
    var s' := Apply(s, Add(x));
    assert Delivered(s') == Delivered(s) + [x];
    assert multiset(Delivered(s) + [x]) == multiset(Delivered(s)) + multiset{x};
    assert multiset(s.added + [x]) == multiset(s.added) + multiset{x};
    SubsequenceExtend(Delivered(s), s.added, x);
  }

  lemma StepTake<T>(s: State<T>, n: nat)
    requires Inv(s) && !s.busy
    ensures Inv(Apply(s, Take(n)))
  {
    assert Delivered(Apply(s, Take(n))) == Delivered(s);
  }

  lemma StepAcknowledge<T>(s: State<T>)
    requires Inv(s) && s.busy
    ensures Inv(Apply(s, Acknowledge))
  {
    assert Delivered(Apply(s, Acknowledge)) == Delivered(s);
  }

  /** Losing a middle stretch of what is held keeps order and accounts for the loss. */
  lemma Cut<T>(s: State<T>, s': State<T>, a: seq<T>, b: seq<T>, c: seq<T>)
    requires Inv(s) && s'.added == s.added && s'.batch == []
    requires Delivered(s) == a + b + c && Delivered(s') == a + c && s'.dropped == s.dropped + b
    ensures Inv(s')
  {
    SubsequenceCut(a, b, c, s.added);
    assert multiset(a + b + c) == multiset(a + c) + multiset(b);
  }

  /** Putting a batch back loses a stretch b of the queue between what stays in front and the kept suffix k. */
  lemma PutBackLoses<T>(s: State<T>, max: int) returns (b: seq<T>, k: seq<T>)
    requires s.busy
    ensures var s' := Apply(s, PutBack(max));
      && s'.added == s.added && s'.batch == [] && s'.dropped == s.dropped + b
      && Delivered(s) == s.acked + s.batch + b + k && Delivered(s') == s.acked + s.batch + k
  {
    k := KeptSuffix(s.batch, s.queue, max);
    b := s.queue[..|s.queue| - |k|];
    SuffixKept(s.batch, s.queue, max);
    Regroup(s.acked + s.batch, b, k);
    Regroup(s.acked, s.batch, k);
    assert s.acked + [] == s.acked;
  }

  lemma SuffixKept<T>(batch: seq<T>, queue: seq<T>, max: int)
    ensures var k := KeptSuffix(batch, queue, max); |k| <= |queue| && queue == queue[..|queue| - |k|] + k
  {
  }

  lemma Regroup<T>(a: seq<T>, b: seq<T>, c: seq<T>)
    ensures a + (b + c) == a + b + c
  {
  }

  lemma StepPutBack<T>(s: State<T>, max: int)
    requires Inv(s) && s.busy
    ensures Inv(Apply(s, PutBack(max)))
  {
    var b, k := PutBackLoses(s, max);
    Cut(s, Apply(s, PutBack(max)), s.acked + s.batch, b, k);
  }

  lemma PathsSplit<T>(s: State<T>)
    ensures var all, kept := s.batch + s.queue, RequeuedPaths(s.batch, s.queue);
      Delivered(s) == s.acked + kept + all[|kept|..] + []
  {
    var all, kept := s.batch + s.queue, RequeuedPaths(s.batch, s.queue);
    assert all == kept + all[|kept|..];
  }

  lemma StepPutBackPaths<T>(s: State<T>)
    requires Inv(s) && s.busy
    ensures Inv(Apply(s, PutBackPaths))
  {
    var all, kept := s.batch + s.queue, RequeuedPaths(s.batch, s.queue);
    PathsSplit(s);
    assert Delivered(Apply(s, PutBackPaths)) == s.acked + kept + [];
    Cut(s, Apply(s, PutBackPaths), s.acked + kept, all[|kept|..], []);
  }

  /** Every step keeps conservation and order. */
  lemma StepKeeps<T>(s: State<T>, st: Step<T>)
    requires Inv(s) && Enabled(s, st)
    ensures Inv(Apply(s, st))
  {
    match st {
      case Add(x) => StepAdd(s, x);
      case Take(n) => StepTake(s, n);
      case Acknowledge => StepAcknowledge(s);
      case PutBack(max) => StepPutBack(s, max);
      case PutBackPaths => StepPutBackPaths(s);
    }
  }

  /** Conservation and order in every state of every run with one upload in flight. */
  lemma {:induction false} ConservedOverRuns<T>(states: seq<State<T>>, steps: seq<Step<T>>, k: nat)
    requires IsRun(states, steps) && k < |states|
    ensures Inv(states[k])
  {
    if k > 0 {
      ConservedOverRuns(states, steps, k - 1);
      StepKeeps(states[k - 1], steps[k - 1]);
    }
  }

  /** Settings of an uploader: batches are taken by `batchSize` and put back under `max`. */
  ghost predicate Uses<T>(steps: seq<Step<T>>, batchSize: nat, max: int)
  {
    forall k :: 0 <= k < |steps| ==>
      (steps[k].Take? ==> steps[k].batchSize == batchSize) && (steps[k].PutBack? ==> steps[k].max == max)
  }

  function Min(a: int, b: int): int
  {
    if a <= b then a else b
  }

  /** In every run with these settings each failed upload leaves exactly min(batch + queue, max) results. */
  ghost predicate AlwaysBounded<T(!new)>(batchSize: nat, max: int)
  {
    forall states: seq<State<T>>, steps: seq<Step<T>>, k: nat ::
      IsRun(states, steps) && Uses(steps, batchSize, max) && k < |steps| && steps[k].PutBack? ==>
        |states[k + 1].queue| == Min(|states[k].batch| + |states[k].queue|, max)
  }

  lemma {:induction false} BatchFits<T>(states: seq<State<T>>, steps: seq<Step<T>>, batchSize: nat, max: int, k: nat)
    requires IsRun(states, steps) && Uses(steps, batchSize, max) && k < |states|
    ensures |states[k].batch| <= batchSize
  {
    if k > 0 {
      BatchFits(states, steps, batchSize, max, k - 1);
      assert states[k] == Apply(states[k - 1], steps[k - 1]);
    }
  }

  /** A run that queues n items. */
  lemma {:induction false} AddedRun<T>(x: T, n: nat) returns (states: seq<State<T>>, steps: seq<Step<T>>)
    ensures IsRun(states, steps) && |states[|steps|].queue| == n && !states[|steps|].busy
    ensures forall k :: 0 <= k < |steps| ==> steps[k].Add?
  {
    if n == 0 {
      states, steps := [State([], [], false, [], [], [])], [];
    } else {
      states, steps := AddedRun(x, n - 1);
      states, steps := ThenStep(states, steps, Add(x));
    }
  }

  lemma ThenStep<T>(states: seq<State<T>>, steps: seq<Step<T>>, st: Step<T>)
    returns (states': seq<State<T>>, steps': seq<Step<T>>)
    requires IsRun(states, steps) && Enabled(states[|steps|], st)
    ensures steps' == steps + [st] && states' == states + [Apply(states[|steps|], st)] && IsRun(states', steps')
  {
    steps', states' := steps + [st], states + [Apply(states[|steps|], st)];
  }

  /** A run of these settings that takes a full batch and puts it back. */
  lemma FullBatchRun<T>(x: T, batchSize: nat, max: int) returns (states: seq<State<T>>, steps: seq<Step<T>>, k: nat)
    ensures IsRun(states, steps) && Uses(steps, batchSize, max) && k < |steps| && steps[k].PutBack?
    ensures |states[k].batch| == batchSize && states[k].queue == [] && |states[k + 1].queue| >= batchSize
  {
    states, steps := AddedRun(x, batchSize);
    var n := |steps|;
    states, steps := ThenStep(states, steps, Take(batchSize));
    k := n + 1;
    states, steps := ThenStep(states, steps, PutBack(max));
  }

  /** The bound on the queue after failed uploads holds in all runs if and only if a batch fits the limit. */
  lemma BoundedIff<T(!new)>(x: T, batchSize: nat, max: int)
    ensures AlwaysBounded<T>(batchSize, max) <==> batchSize <= max
  {
    if batchSize <= max {
      forall states: seq<State<T>>, steps: seq<Step<T>>, k: nat |
        IsRun(states, steps) && Uses(steps, batchSize, max) && k < |steps| && steps[k].PutBack?
        ensures |states[k + 1].queue| == Min(|states[k].batch| + |states[k].queue|, max)
      {
        BatchFits(states, steps, batchSize, max, k);
        RequeueBound(states[k].batch, states[k].queue, max);
      }
    } else {
      var states, steps, k := FullBatchRun(x, batchSize, max);
      assert |states[k + 1].queue| != Min(|states[k].batch| + |states[k].queue|, max);
    }
  }

  /** Nothing is lost except when a batch is put back and does not fit. */
  lemma LossOnlyOnOverflow<T>(s: State<T>, st: Step<T>)
    requires Enabled(s, st)
    ensures Apply(s, st).dropped != s.dropped <==>
            (st.PutBack? && s.queue != [] && |s.batch| + |s.queue| > st.max)
            || (st.PutBackPaths? && |s.batch| + |s.queue| > MAX_PATH_INFOS)
  {
    var s' := Apply(s, st);
    assert s'.dropped != s.dropped <==> |s'.dropped| > |s.dropped|;
  }
}

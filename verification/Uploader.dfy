/** The uploader on Go slices: the batch and the queue are windows of backing arrays that they may share,
    append writes in place when there is capacity and reallocates otherwise. Every operation is proved to
    do to the contents what module UploadQueue says on sequences. */
module SliceUploader {
  import opened UploadQueue

  /** A Go slice: a window of an array; its capacity reaches to the end of the array. */
  datatype Slice<T> = Slice(arr: array<T>, off: nat, len: nat)

  ghost predicate InBounds<T>(s: Slice<T>)
  {
    s.off + s.len <= s.arr.Length
  }

  ghost function Contents<T>(s: Slice<T>): seq<T>
    requires InBounds(s)
    reads s.arr
  {
    s.arr[s.off..s.off + s.len]
  }

  lemma Joined<T>(w: seq<T>, x: seq<T>, y: seq<T>)
    requires |w| == |x| + |y|
    requires forall k :: 0 <= k < |x| ==> w[k] == x[k]
    requires forall k :: 0 <= k < |y| ==> w[|x| + k] == y[k]
    ensures w == x + y
  {
    forall k | 0 <= k < |w|
      ensures w[k] == (x + y)[k]
    {
      if k >= |x| {
        assert w[|x| + (k - |x|)] == y[k - |x|];
      }
    }
  }

  /** The cells of an append within capacity: `t` is copied right behind `s`. If they share an array, `t` lies behind
      `s`, so the copy moves elements towards the front and reads each before it is overwritten. */
  method CopyCells<T>(s: Slice<T>, t: Slice<T>)
    requires InBounds(s) && InBounds(t) && s.off + s.len + t.len <= s.arr.Length
    requires s.arr == t.arr ==> s.off + s.len <= t.off
    modifies s.arr
    ensures forall j :: 0 <= j < t.len ==> s.arr[s.off + s.len + j] == old(Contents(t))[j]
    ensures forall k :: 0 <= k < s.arr.Length && !(s.off + s.len <= k < s.off + s.len + t.len) ==>
              s.arr[k] == old(s.arr[k])
  {
    ghost var src := Contents(t);
    var d := s.off + s.len;
    for i := 0 to t.len
      invariant forall j :: 0 <= j < i ==> s.arr[d + j] == src[j]
      invariant forall k :: 0 <= k < d ==> s.arr[k] == old(s.arr[k])
      invariant forall k :: d + i <= k < s.arr.Length ==> s.arr[k] == old(s.arr[k])
      invariant forall j :: i <= j < t.len ==> t.arr[t.off + j] == src[j]
    {
      s.arr[d + i] := t.arr[t.off + i];
    }
  }

  /** append within capacity yields the concatenation. */
  method CopyBehind<T>(s: Slice<T>, t: Slice<T>)
    requires InBounds(s) && InBounds(t) && s.off + s.len + t.len <= s.arr.Length
    requires s.arr == t.arr ==> s.off + s.len <= t.off
    modifies s.arr
    ensures s.arr[s.off..s.off + s.len + t.len] == old(Contents(s) + Contents(t))
    ensures forall k :: 0 <= k < s.arr.Length && !(s.off + s.len <= k < s.off + s.len + t.len) ==>
              s.arr[k] == old(s.arr[k])
  {
    ghost var x, y := Contents(s), Contents(t);
    CopyCells(s, t);
    Joined(s.arr[s.off..s.off + s.len + t.len], x, y);
  }

  /** append beyond capacity: a new array of at least the needed size. */
  method CopyToNew<T(0)>(s: Slice<T>, t: Slice<T>, spare: nat) returns (r: Slice<T>)
    requires InBounds(s) && InBounds(t)
    ensures fresh(r.arr) && InBounds(r) && r.len == s.len + t.len && Contents(r) == Contents(s) + Contents(t)
  {
    ghost var x, y := Contents(s), Contents(t);
    var a := new T[s.len + t.len + spare];
    for i := 0 to s.len
      invariant forall k :: 0 <= k < i ==> a[k] == x[k]
    {
      assert x[i] == s.arr[s.off + i];
      a[i] := s.arr[s.off + i];
    }
    for i := 0 to t.len
      invariant forall k :: 0 <= k < s.len ==> a[k] == x[k]
      invariant forall k :: 0 <= k < i ==> a[s.len + k] == y[k]
    {
      assert y[i] == t.arr[t.off + i];
      a[s.len + i] := t.arr[t.off + i];
    }
    r := Slice(a, 0, s.len + t.len);
    Joined(a[..s.len + t.len], x, y);
  }

  /** append(s, t...); `spare` is the extra room a reallocation takes. */
  method Append<T(0)>(s: Slice<T>, t: Slice<T>, spare: nat) returns (r: Slice<T>)
    requires InBounds(s) && InBounds(t)
    requires s.arr == t.arr ==> s.off + s.len <= t.off
    modifies s.arr
    ensures InBounds(r) && r.len == s.len + t.len && Contents(r) == old(Contents(s) + Contents(t))
    ensures (r.arr == s.arr && r.off == s.off) || fresh(r.arr)
    ensures forall k :: 0 <= k < s.arr.Length && k < s.off + s.len ==> s.arr[k] == old(s.arr[k])
  {
    ghost var x, y := Contents(s), Contents(t);
    if s.off + s.len + t.len <= s.arr.Length {
      CopyBehind(s, t);
      assert s.arr[s.off..s.off + (s.len + t.len)] == x + y;
      r := Slice(s.arr, s.off, s.len + t.len);
    } else {
      r := CopyToNew(s, t, spare);
      assert Contents(r) == x + y;
    }
  }

  /** append(s, x). */
  method AppendOne<T(0)>(s: Slice<T>, x: T, spare: nat) returns (r: Slice<T>)
    requires InBounds(s)
    modifies s.arr
    ensures InBounds(r) && r.len == s.len + 1 && Contents(r) == old(Contents(s)) + [x]
    ensures (r.arr == s.arr && r.off == s.off) || fresh(r.arr)
    ensures forall k :: 0 <= k < s.arr.Length && k < s.off + s.len ==> s.arr[k] == old(s.arr[k])
  {
    ghost var before := Contents(s);
    var one := new T[1](_ => x);
    assert one[0..1] == [x];
    r := Append(s, Slice(one, 0, 1), spare);
    assert Contents(r) == before + [x];
  }

  /** Reslicing at n cuts the contents at n. */
  lemma Resliced<T>(s: Slice<T>, n: nat, q: seq<T>)
    requires InBounds(s) && q == Contents(s)
    ensures s.len > n ==> Contents(Slice(s.arr, s.off, n)) == q[..n]
    ensures s.len > n ==> Contents(Slice(s.arr, s.off + n, s.len - n)) == q[n..]
  {
    if s.len > n {
      var front, back := Contents(Slice(s.arr, s.off, n)), Contents(Slice(s.arr, s.off + n, s.len - n));
      assert forall k :: 0 <= k < n ==> front[k] == q[k];
      assert forall k :: 0 <= k < s.len - n ==> back[k] == q[n + k];
    }
  }

  /** Keep the newest part of the queue that fits beside n others: a later window of the same array, or a new
      one. */
  method TrimSlice<T(0)>(n: nat, q: Slice<T>, max: nat) returns (r: Slice<T>)
    requires InBounds(q)
    ensures InBounds(r) && Contents(r) == Newest(n, Contents(q), max)
    ensures (r.arr == q.arr && q.off <= r.off) || fresh(r.arr)
  {
    if n + q.len > max {
      var toKeep := max - n;
      if toKeep > 0 {
        Resliced(q, q.len - toKeep, Contents(q));
        r := Slice(q.arr, q.off + (q.len - toKeep), toKeep);
      } else {
        var a := new T[max];
        r := Slice(a, 0, 0);
      }
    } else {
      r := q;
    }
  }

  /** Put path infos back in front and keep the first hundred. */
  method JoinPaths<T(0)>(b: Slice<T>, q: Slice<T>, spare: nat) returns (r: Slice<T>)
    requires InBounds(b) && InBounds(q)
    requires b.arr == q.arr ==> b.off + b.len <= q.off
    modifies b.arr
    ensures InBounds(r) && Contents(r) == RequeuedPaths(old(Contents(b)), old(Contents(q)))
    ensures r.arr == b.arr || fresh(r.arr)
  {
    r := Append(b, q, spare);
    if r.len > MAX_PATH_INFOS {
      Resliced(r, MAX_PATH_INFOS, Contents(r));
      r := Slice(r.arr, r.off, MAX_PATH_INFOS);
    }
  }

  /** Why an upload failed: no client and connecting failed, the call failed, or the analyzer said no. Only a
      failed call drops the client inside uploadData; the upload loop drops it after any failure. */
  datatype Failure = NoConnection | RpcError | Rejected

  /** A queue and the batch taken from it, as slices, with what has happened so far. */
  class RetryQueue<T(0)> {
    var queue: Slice<T>
    var batch: Slice<T>
    var busy: bool
    ghost var added: seq<T>
    ghost var acked: seq<T>
    ghost var dropped: seq<T>

    ghost predicate Valid()
      reads this
    {
      && InBounds(queue) && InBounds(batch)
      && (busy && batch.arr == queue.arr ==> batch.off + batch.len <= queue.off)
    }

    ghost function Queue(): seq<T>
      requires Valid()
      reads this, queue.arr
    {
      Contents(queue)
    }

    ghost function Batch(): seq<T>
      requires Valid()
      reads this, batch.arr
    {
      if busy then Contents(batch) else []
    }

    /** The queue as a state of the sequence model: every method is one of its steps, so conservation and order
        carry over. */
    ghost function Abs(): State<T>
      requires Valid()
      reads this, queue.arr, batch.arr
    {
      State(Queue(), Batch(), busy, added, acked, dropped)
    }

    constructor (capacity: nat)
      ensures Valid() && !busy && Queue() == [] && fresh(queue.arr) && fresh(batch.arr)
      ensures Abs() == State([], [], false, [], [], [])
    {
      var a := new T[capacity];
      queue, batch, busy := Slice(a, 0, 0), Slice(a, 0, 0), false;
      added, acked, dropped := [], [], [];
    }

    /** AddProbeResult and AddPathInfo: append at the end; the batch in flight is not touched even when it
        shares the array. */
    method Add(x: T, spare: nat)
      requires Valid()
      modifies this`queue, this`added, queue.arr
      ensures Valid() && Queue() == old(Queue()) + [x] && Batch() == old(Batch())
      ensures Abs() == Apply(old(Abs()), Step.Add(x))
      ensures queue.arr == old(queue.arr) || fresh(queue.arr)
    {
      ghost var b := Batch();
      queue := AppendOne(queue, x, spare);
      added := added + [x];
      assert |Batch()| == |b|;
      assert forall k :: 0 <= k < |b| ==> Batch()[k] == b[k];
      assert Batch() == b;
    }

    /** Take up to `batchSize` from the front: both slices keep the array, or the whole queue is taken and
        replaced by a new array. */
    method Take(batchSize: nat, capacity: nat)
      requires Valid() && !busy
      modifies this`queue, this`batch, this`busy
      ensures Valid() && busy
      ensures (Batch(), Queue()) == Taken(old(Queue()), batchSize)
      ensures Batch() + Queue() == old(Queue())
      ensures |Batch()| == if |old(Queue())| <= batchSize then |old(Queue())| else batchSize
      ensures Abs() == Apply(old(Abs()), Step.Take(batchSize))
      ensures batch.arr == old(queue.arr) && (queue.arr == old(queue.arr) || fresh(queue.arr))
    {
      ghost var q := Queue();
      if queue.len > batchSize {
        batch := Slice(queue.arr, queue.off, batchSize);
        queue := Slice(queue.arr, queue.off + batchSize, queue.len - batchSize);
      } else {
        batch := queue;
        var a := new T[capacity];
        queue := Slice(a, 0, 0);
      }
      busy := true;
      Resliced(old(queue), batchSize, q);
    }

    /** The upload succeeded: the batch leaves. */
    method Acknowledge()
      requires Valid() && busy
      modifies this`busy, this`acked
      ensures Valid() && !busy && Queue() == old(Queue()) && Batch() == []
      ensures Abs() == Apply(old(Abs()), Step.Acknowledge)
    {
      acked := acked + Batch();
      busy := false;
    }

    /** Drop the oldest queued results that would not fit behind the batch. */
    method Trim(max: nat)
      requires Valid() && busy
      modifies this`queue
      ensures Valid() && Batch() == old(Batch())
      ensures Queue() == KeptSuffix(old(Batch()), old(Queue()), max)
    {
      ghost var b := Batch();
      assert |b| == batch.len;
      queue := TrimSlice(batch.len, queue, max);
      assert Batch() == b;
    }

    /** The upload failed: trim the queue to its newest part if needed and put the batch back in front. The
        append may overlap its own source. */
    method PutBack(max: nat, spare: nat)
      requires Valid() && busy
      modifies this`queue, this`busy, this`dropped, batch.arr
      ensures Valid() && !busy
      ensures PutsBack(old(Abs()), Abs(), max)
      ensures queue.arr == old(batch.arr) || fresh(queue.arr)
    {
      ghost var s := Abs();
      dropped := dropped + s.queue[..|s.queue| - |KeptSuffix(s.batch, s.queue, max)|];
      Trim(max);
      queue := Append(batch, queue, spare);
      busy := false;
      IsPutBack(s, Abs(), max);
    }

    /** Path infos: put back in front, then keep the first hundred. */
    method PutBackPaths(spare: nat)
      requires Valid() && busy
      modifies this`queue, this`busy, this`dropped, batch.arr
      ensures Valid() && !busy
      ensures PutsBackPaths(old(Abs()), Abs())
      ensures queue.arr == old(batch.arr) || fresh(queue.arr)
    {
      ghost var s := Abs();
      dropped := dropped + (s.batch + s.queue)[|RequeuedPaths(s.batch, s.queue)|..];
      queue := JoinPaths(batch, queue, spare);
      busy := false;
      IsPutBackPaths(s, Abs());
    }
  }

  /** The uploader: a retry queue of probe results, one of path infos, and whether a client exists. */
  class Uploader<R(0), P(0)> {
    const results: RetryQueue<R>
    const paths: RetryQueue<P>
    const batchSize: nat
    const maxQueueSize: nat
    var client: bool

    ghost predicate Valid()
      reads this, results, paths
    {
      && results as object != paths && results as object != this && paths as object != this
      && results.Valid() && paths.Valid() && results.busy == paths.busy
      && results.queue.arr as object != paths.queue.arr && results.queue.arr as object != paths.batch.arr
      && results.batch.arr as object != paths.queue.arr && results.batch.arr as object != paths.batch.arr
    }

    constructor (batchSize: nat, maxQueueSize: nat)
      ensures Valid() && !results.busy && results.Queue() == [] && paths.Queue() == [] && !client
      ensures results.Abs() == State([], [], false, [], [], []) && paths.Abs() == State([], [], false, [], [], [])
      ensures this.batchSize == batchSize && this.maxQueueSize == maxQueueSize
    {
      results := new RetryQueue<R>(maxQueueSize);
      paths := new RetryQueue<P>(MAX_PATH_INFOS);
      this.batchSize, this.maxQueueSize, client := batchSize, maxQueueSize, false;
    }

    /** AddProbeResult: nothing is ever refused or dropped here; a full queue only asks for an upload. */
    method AddProbeResult(x: R, spare: nat) returns (triggerUpload: bool)
      requires Valid()
      modifies results, results.queue.arr
      ensures Valid() && results.busy == old(results.busy)
      ensures results.Queue() == old(results.Queue()) + [x] && results.Batch() == old(results.Batch())
      ensures results.Abs() == Apply(old(results.Abs()), Step.Add(x)) && paths.Abs() == old(paths.Abs())
      ensures paths.Queue() == old(paths.Queue()) && paths.Batch() == old(paths.Batch())
      ensures triggerUpload <==> |results.Queue()| >= maxQueueSize
    {
      results.Add(x, spare);
      triggerUpload := results.queue.len >= maxQueueSize;
    }

    method AddPathInfo(x: P, spare: nat)
      requires Valid()
      modifies paths, paths.queue.arr
      ensures Valid() && paths.busy == old(paths.busy)
      ensures paths.Queue() == old(paths.Queue()) + [x] && paths.Batch() == old(paths.Batch())
      ensures paths.Abs() == Apply(old(paths.Abs()), Step.Add(x)) && results.Abs() == old(results.Abs())
      ensures results.Queue() == old(results.Queue()) && results.Batch() == old(results.Batch())
    {
      paths.Add(x, spare);
    }

    /** The first locked section of uploadData. */
    method BeginUpload() returns (any: bool)
      requires Valid() && !results.busy
      modifies results, paths
      ensures Valid() && results.busy == any
      ensures any <==> old(results.Queue()) != [] || old(paths.Queue()) != []
      ensures any ==> (results.Batch(), results.Queue()) == Taken(old(results.Queue()), batchSize)
      ensures any ==> results.Batch() + results.Queue() == old(results.Queue())
      ensures any ==>
                |results.Batch()| == if |old(results.Queue())| <= batchSize then |old(results.Queue())| else batchSize
      ensures any ==> paths.Batch() == old(paths.Queue()) && paths.Queue() == []
      ensures any ==> results.Abs() == Apply(old(results.Abs()), Step.Take(batchSize))
      ensures any ==> paths.Abs() == Apply(old(paths.Abs()), Step.Take(|old(paths.Queue())|))
      ensures !any ==> results.Queue() == [] && paths.Queue() == []
    {
      if results.queue.len == 0 && paths.queue.len == 0 {
        return false;
      }
      results.Take(batchSize, maxQueueSize);
      assert paths.Abs() == old(paths.Abs());
      ghost var r := results.Abs();
      assert |paths.Queue()| == paths.queue.len;
      paths.Take(paths.queue.len, MAX_PATH_INFOS);
      assert results.Abs() == r;
      any := true;
    }

    /** The connection check of uploadData: connect only if there is no client. */
    method EnsureClient(connects: bool)
      modifies this`client
      ensures client == (old(client) || connects)
    {
      if !client {
        client := connects;
      }
    }

    /** The analyzer accepted the batch. */
    method Succeed()
      requires Valid() && results.busy && client
      modifies results`busy, results`acked, paths`busy, paths`acked
      ensures Valid() && !results.busy
      ensures results.Abs() == Apply(old(results.Abs()), Step.Acknowledge)
      ensures paths.Abs() == Apply(old(paths.Abs()), Step.Acknowledge)
      ensures results.Queue() == old(results.Queue()) && paths.Queue() == old(paths.Queue())
    {
      results.Acknowledge();
      paths.Acknowledge();
    }

    /** Any of the three failure paths: batch and path infos go back to the front of their queues. */
    method Fail(why: Failure, spare: nat)
      requires Valid() && results.busy && (why.NoConnection? <==> !client)
      modifies this`client, results, paths, results.batch.arr, paths.batch.arr
      ensures Valid() && !results.busy
      ensures PutsBack(old(results.Abs()), results.Abs(), maxQueueSize)
      ensures PutsBackPaths(old(paths.Abs()), paths.Abs())
      ensures client <==> why.Rejected?
    {
      ghost var p := paths.Abs();
      assert paths.queue.arr != results.batch.arr && paths.batch.arr != results.batch.arr;
      results.PutBack(maxQueueSize, spare);
      assert paths.Abs() == p;
      ghost var r := results.Abs();
      assert results.queue.arr != paths.batch.arr && results.batch.arr != paths.batch.arr;
      paths.PutBackPaths(spare);
      assert results.Abs() == r;
      if why == RpcError {
        client := false;
      }
    }

    /** What the upload loop does after a failed upload: the next tick connects again, the queues stay. */
    method DropClient()
      requires Valid()
      modifies this`client
      ensures Valid() && !client
      ensures results.Queue() == old(results.Queue()) && paths.Queue() == old(paths.Queue())
    {
      client := false;
    }
  }
}

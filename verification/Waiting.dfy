/** The second half of ProbeTarget: the loop that waits for both ACKs, the extraction of T3 and T4
    and the three delay figures. */
module Waiting {
  import opened Collections
  import opened Sessions

  datatype Status = OK | TIMEOUT | ERROR | UNKNOWN

  datatype Metrics = Metrics(networkRtt: int, responderDelay: int, proberDelay: int)

  /** A ProbeResult's timestamps (unset ones are None) and, when computed, its delay figures. */
  datatype Result = Result(status: Status, t1: Option<int>, t2: Option<int>, t3: Option<int>,
                           t4: Option<int>, t5: Option<int>, t6: Option<int>, metrics: Option<Metrics>)

  /** The local variables of the wait loop. */
  datatype Wait = Wait(ack1: Option<Event>, ack2: Option<Event>, t5: Option<int>)

  const NO_ACKS: Wait := Wait(None, None, None)

  /** An event taken from Ack1Chan. */
  function Take1(w: Wait, ev: Event): Wait
  {
    if w.ack1.Some? then w
    else Wait(Some(ev), w.ack2, if w.ack2.None? then Some(ev.receivedAt) else w.t5)
  }

  /** An event taken from Ack2Chan. */
  function Take2(w: Wait, ev: Event): Wait
  {
    if w.ack2.Some? then w
    else Wait(w.ack1, Some(ev), if w.ack1.None? then Some(ev.receivedAt) else w.t5)
  }

  predicate BothReceived(w: Wait)
  {
    w.ack1.Some? && w.ack2.Some?
  }

  /** The ACK of the given type, looked for in ack1Event first and ack2Event second. */
  function EventOfType(w: Wait, ty: nat): Option<Event>
  {
    if w.ack1.Some? && w.ack1.value.pkt.ackType == ty then w.ack1
    else if w.ack2.Some? && w.ack2.value.pkt.ackType == ty then w.ack2
    else None
  }

  function Failed(status: Status, t1: Option<int>, t2: Option<int>, t5: Option<int>): Result
  {
    Result(status, t1, t2, None, None, t5, None, None)
  }

  function DelayFigures(t1: int, t2: int, t3: int, t4: int, t5: int, t6: int): Metrics
  {
    Metrics(t5 - t2 - (t4 - t3), t4 - t3, t6 - t1 - (t5 - t2))
  }

  /** What ProbeTarget publishes once both ACKs are in, including its "not found" and "missing
      timestamps" branches. */
  function Conclude(t1: int, t2: int, w: Wait, t6: int): Result
  {
    var first, second := EventOfType(w, 1), EventOfType(w, 2);
    var t3 := if first.Some? then Some(first.value.pkt.t3) else None;
    var t4 := if second.Some? then Some(second.value.pkt.t4) else None;
    var figures :=
      if t3.Some? && t4.Some? && w.t5.Some?
      then Some(DelayFigures(t1, t2, t3.value, t4.value, w.t5.value, t6))
      else None;
    Result(OK, Some(t1), Some(t2), t3, t4, w.t5, Some(t6), figures)
  }

  /** Ack1 is of type 1, Ack2 of type 2, and T5 is the receive time of one of them. */
  ghost predicate WaitTyped(w: Wait)
  {
    && (w.ack1.Some? ==> w.ack1.value.pkt.ackType == 1)
    && (w.ack2.Some? ==> w.ack2.value.pkt.ackType == 2)
    && (w.t5.Some? <==> w.ack1.Some? || w.ack2.Some?)
    && (w.t5.Some? ==> (w.ack1.Some? && w.t5.value == w.ack1.value.receivedAt)
                       || (w.ack2.Some? && w.t5.value == w.ack2.value.receivedAt))
  }

  /** A result with everything in it: all six timestamps and the figures computed from them. */
  ghost predicate Complete(r: Result)
  {
    && r.t1.Some? && r.t2.Some? && r.t3.Some? && r.t4.Some? && r.t5.Some? && r.t6.Some?
    && r.metrics == Some(DelayFigures(r.t1.value, r.t2.value, r.t3.value, r.t4.value, r.t5.value, r.t6.value))
  }

  /** An OK result with these six timestamps, and the figures they give. */
  ghost predicate Measured(r: Result, t1: int, t2: int, t3: int, t4: int, t5: int, t6: int)
  {
    && r.status == OK && r.t1 == Some(t1) && r.t2 == Some(t2) && r.t3 == Some(t3) && r.t4 == Some(t4)
    && r.t5 == Some(t5) && r.t6 == Some(t6) && r.metrics.Some?
    && r.metrics.value.responderDelay == t4 - t3
    && r.metrics.value.networkRtt == (t5 - t2) - (t4 - t3)
    && r.metrics.value.proberDelay == (t6 - t1) - (t5 - t2)
  }

  /** A result without measurement: a status and the timestamps known when the call gave up. */
  ghost predicate Unfinished(r: Result, status: Status, t1: Option<int>, t2: Option<int>, t5: Option<int>)
  {
    && r.status == status && r.t1 == t1 && r.t2 == t2 && r.t5 == t5
    && r.t3.None? && r.t4.None? && r.t6.None? && r.metrics.None?
  }

  /** With typed channels the "not found" and "missing timestamps" branches are not taken: T3 comes
      from the type-1 ACK and T4 from the type-2 ACK, whichever came first. */
  lemma ConcludeIsComplete(t1: int, t2: int, w: Wait, t6: int)
    requires BothReceived(w) && WaitTyped(w)
    ensures var r := Conclude(t1, t2, w, t6);
      && Complete(r) && r.status == OK
      && Measured(r, t1, t2, w.ack1.value.pkt.t3, w.ack2.value.pkt.t4, w.t5.value, t6)
  {
    assert EventOfType(w, 1) == w.ack1 && EventOfType(w, 2) == w.ack2;
  }

  /** One outcome of the select statement in the wait loop. */
  datatype Select = Expired | First(ev: Event) | FirstClosed | Second(ev: Event) | SecondClosed

  predicate IsAck(s: Select)
  {
    s.First? || s.Second?
  }

  /** The first event of a kind among the first `n` outcomes. */
  ghost predicate FirstOfKind(inputs: seq<Select>, n: nat, second: bool, ev: Option<Event>)
    requires n <= |inputs|
  {
    match ev
    case None => forall i :: 0 <= i < n ==> (if second then !inputs[i].Second? else !inputs[i].First?)
    case Some(e) =>
      exists i :: 0 <= i < n && inputs[i] == (if second then Second(e) else First(e))
                  && forall j :: 0 <= j < i ==> (if second then !inputs[j].Second? else !inputs[j].First?)
  }

  /** The loop's variables after a stretch of ACK events, one Take1 or Take2 per event. */
  ghost function WaitAfter(acks: seq<Select>): Wait
    requires forall i :: 0 <= i < |acks| ==> IsAck(acks[i])
  {
    if acks == [] then NO_ACKS
    else
      var w := WaitAfter(acks[..|acks| - 1]);
      var last := acks[|acks| - 1];
      assert IsAck(last);
      if last.First? then Take1(w, last.ev) else Take2(w, last.ev)
  }

  /** The wait loop run on the outcomes its select produces. It returns None while it is still blocked.
      A result is OK exactly when only ACKs were seen and both kinds were; T5 is the receive time of
      the very first event taken and no later event changes it. */
  method AwaitAcks(t1: int, t2: int, inputs: seq<Select>, t6: int)
    returns (r: Option<Result>, n: nat, w: Wait)
    ensures n <= |inputs| && (r.None? ==> n == |inputs| && !BothReceived(w))
    ensures forall i :: 0 <= i < n ==> IsAck(inputs[i])
    ensures FirstOfKind(inputs, n, false, w.ack1) && FirstOfKind(inputs, n, true, w.ack2)
    ensures if n == 0 then w.t5.None? else IsAck(inputs[0]) && w.t5 == Some(inputs[0].ev.receivedAt)
    ensures r.Some? && r.value.status == OK <==> BothReceived(w)
    ensures BothReceived(w) ==> r == Some(Conclude(t1, t2, w, t6))
    ensures r.Some? && !BothReceived(w) ==>
              && n < |inputs| && !IsAck(inputs[n])
              && Unfinished(r.value, if inputs[n].Expired? then TIMEOUT else ERROR, Some(t1), Some(t2), w.t5)
    ensures BothReceived(w) && WaitTyped(w) ==>
              && r.Some? && w.t5.Some?
              && Measured(r.value, t1, t2, w.ack1.value.pkt.t3, w.ack2.value.pkt.t4, w.t5.value, t6)
    ensures BothReceived(w) ==> r.Some? && r.value.t1 == Some(t1) && r.value.t2 == Some(t2) && r.value.t6 == Some(t6)
    ensures w == WaitAfter(inputs[..n])
  {
    n := 0;
    w := NO_ACKS;
    var ack1, ack2, t5 := None, None, None;
    while ack1.None? || ack2.None?
      invariant n <= |inputs| && w == Wait(ack1, ack2, t5)
      invariant forall i :: 0 <= i < n ==> IsAck(inputs[i])
      invariant FirstOfKind(inputs, n, false, ack1) && FirstOfKind(inputs, n, true, ack2)
      invariant n > 0 ==> ack1.Some? || ack2.Some?
      invariant w == WaitAfter(inputs[..n])
      invariant if n == 0 then t5.None? else IsAck(inputs[0]) && t5 == Some(inputs[0].ev.receivedAt)
      decreases |inputs| - n
    {
      if n == |inputs| {
        return None, n, w;
      }
      match inputs[n] {
        case Expired => return Some(Failed(TIMEOUT, Some(t1), Some(t2), t5)), n, w;
        case FirstClosed => return Some(Failed(ERROR, Some(t1), Some(t2), t5)), n, w;
        case SecondClosed => return Some(Failed(ERROR, Some(t1), Some(t2), t5)), n, w;
        case First(ev) =>
          if ack1.None? {
            ack1 := Some(ev);
            if ack2.None? {
              t5 := Some(ev.receivedAt);
            }
          }
        case Second(ev) =>
          if ack2.None? {
            ack2 := Some(ev);
            if ack1.None? {
              t5 := Some(ev.receivedAt);
            }
          }
      }
      w := Wait(ack1, ack2, t5);
      n := n + 1;
      assert inputs[..n][..n - 1] == inputs[..n - 1];
    }
    r := Some(Conclude(t1, t2, w, t6));
    if WaitTyped(w) {
      ConcludeIsComplete(t1, t2, w, t6);
    }
  }
}

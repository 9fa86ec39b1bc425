/** A UD queue: slot layout, the send ring, and the receive credits of every completion path, with the NIC as an
    abstract receive queue and completion queue. */
module UDQueues {
  const MR_SIZE: nat := 4096
  const GRH_SIZE: nat := 40
  const SLOT_SIZE: nat := MR_SIZE + GRH_SIZE
  const NUM_SLOTS: nat := 32
  const RECV_CHAN_SIZE: nat := 100
  /** Size of a ProbePacket: four 64-bit fields and four bytes, padded to a multiple of eight. */
  const PACKET_SIZE: nat := 40

  /** A successful receive completion: WRID, length, GRH flag and the packet's IsAck == 1. */
  datatype Recv = Recv(wrid: int, byteLen: nat, grh: bool, isAck: bool)

  predicate IsSlot(wrid: int)
  {
    0 <= wrid < NUM_SLOTS
  }

  predicate TooSmall(rc: Recv)
  {
    rc.byteLen < if rc.grh then GRH_SIZE + PACKET_SIZE else PACKET_SIZE
  }

  /** One receive slot: receives the NIC holds under this WRID, completions not yet handled, reposts the handler at
      work still owes; and so far: packets too small, packets consumed by ReceivePacket, fallback posts for a
      WRID that is no slot, posts the NIC refused and receives that completed with an error. */
  datatype Slot = Slot(posted: nat, awaiting: nat, owed: nat,
                       small: nat, consumed: nat, stray: nat, refused: nat, errors: nat)

  const EMPTY_SLOT: Slot := Slot(0, 0, 0, 0, 0, 0, 0, 0)

  /** The credit law: one receive per slot, one more per double repost, one less per lost post. */
  predicate Balanced(s: Slot)
  {
    s.posted + s.awaiting + s.owed + s.refused + s.errors == 1 + s.small + s.consumed + s.stray
  }

  /** PostRecvSlot on one slot. */
  function Posted(s: Slot, accepted: bool): Slot
  {
    if accepted then s.(posted := s.posted + 1) else s.(refused := s.refused + 1)
  }

  /** The NIC fills a posted receive. */
  function Filled(s: Slot): Slot
    requires s.posted > 0
  {
    s.(posted := s.posted - 1, awaiting := s.awaiting + 1)
  }

  /** A completion was handled: one repost, or two when the packet was too small. */
  function Handled(s: Slot, small: bool, first: bool, second: bool): Slot
    requires s.awaiting > 0
  {
    var s1 := s.(awaiting := s.awaiting - 1);
    if small then Posted(Posted(s1.(small := s1.small + 1), first), second) else Posted(s1, first)
  }

  /** What handling a completion did to its slot: one completion less, one post for every repost the NIC accepted. */
  ghost predicate Reposted(s: Slot, s': Slot, small: bool, first: bool, second: bool)
  {
    && s'.awaiting == s.awaiting - 1
    && s'.posted == s.posted + (if first then 1 else 0) + (if small && second then 1 else 0)
    && s'.refused == s.refused + (if first then 0 else 1) + (if small && !second then 1 else 0)
  }

  lemma HandledReposts(s: Slot, small: bool, first: bool, second: bool)
    requires s.awaiting > 0
    ensures Reposted(s, Handled(s, small, first, second), small, first, second)
  {
  }

  /** A receive completed with an error. */
  function Errored(s: Slot): Slot
    requires s.awaiting > 0
  {
    s.(awaiting := s.awaiting - 1, errors := s.errors + 1)
  }

  /** ReceivePacket consumed a packet of this slot. */
  function Consumed(s: Slot, accepted: bool): Slot
  {
    Posted(s.(consumed := s.consumed + 1), accepted)
  }

  /** PostRecv posted this slot for a WRID that is no slot. */
  function Strayed(s: Slot, accepted: bool): Slot
  {
    Posted(s.(stray := s.stray + 1), accepted)
  }

  /** What can happen to one slot while every WRID is a slot. */
  datatype Event = Fill | Handle(small: bool, first: bool, second: bool) | Fail | Consume(accepted: bool)

  predicate Possible(s: Slot, e: Event)
  {
    match e
    case Fill => s.posted > 0
    case Handle(_, _, _) => s.awaiting > 0
    case Fail => s.awaiting > 0
    case Consume(_) => true
  }

  function After(s: Slot, e: Event): Slot
    requires Possible(s, e)
  {
    match e
    case Fill => Filled(s)
    case Handle(small, first, second) => Handled(s, small, first, second)
    case Fail => Errored(s)
    case Consume(accepted) => Consumed(s, accepted)
  }

  /** A slot's life from its initial post. */
  ghost predicate SlotRun(states: seq<Slot>, events: seq<Event>)
  {
    && |states| == |events| + 1 && states[0] == EMPTY_SLOT.(posted := 1)
    && forall i :: 0 <= i < |events| ==> Possible(states[i], events[i]) && states[i + 1] == After(states[i], events[i])
  }

  /** Nothing but filling and the handling of full-size packets with an accepted repost: the life of a slot on
      a sender queue that gets only ACKs. */
  predicate OnlyAcks(e: Event)
  {
    e.Fill? || (e.Handle? && !e.small && e.first)
  }

  /** Receives of the slot that are posted or await handling. */
  function Credits(s: Slot): nat
  {
    s.posted + s.awaiting
  }

  lemma BalancedStep(s: Slot, e: Event)
    requires Balanced(s) && s.owed == 0 && Possible(s, e)
    ensures Balanced(After(s, e)) && After(s, e).owed == 0
    ensures s == EMPTY_SLOT.(posted := s.posted, awaiting := s.awaiting) && OnlyAcks(e) ==>
              After(s, e) == EMPTY_SLOT.(posted := After(s, e).posted, awaiting := After(s, e).awaiting)
  {
  }

  /** In every run the credit law holds; while posts are accepted and no receive fails the slot never runs dry,
      and on a queue that gets only full-size ACKs it has exactly one receive at all times. */
  lemma {:induction false} CreditsOverRuns(states: seq<Slot>, events: seq<Event>, n: nat)
    requires SlotRun(states, events) && n < |states|
    ensures Balanced(states[n]) && states[n].owed == 0
    ensures states[n].refused + states[n].errors == 0 ==> Credits(states[n]) >= 1
    ensures (forall i :: 0 <= i < n ==> OnlyAcks(events[i])) ==>
              && Credits(states[n]) == 1
              && states[n] == EMPTY_SLOT.(posted := states[n].posted, awaiting := states[n].awaiting)
  {
    if n > 0 {
      CreditsOverRuns(states, events, n - 1);
      BalancedStep(states[n - 1], events[n - 1]);
    }
  }

  /** Events that leave the number of receives of a slot as it is. */
  predicate Neutral(e: Event)
  {
    match e
    case Fill => true
    case Handle(small, first, second) => if small then first != second else first
    case Fail => false
    case Consume(accepted) => !accepted
  }

  lemma NeutralKeepsCredits(s: Slot, e: Event)
    requires Possible(s, e)
    ensures Credits(After(s, e)) == Credits(s) <==> Neutral(e)
  {
  }

  ghost predicate OneUpTo(states: seq<Slot>, n: nat)
    requires n < |states|
  {
    forall m :: 0 <= m <= n ==> Credits(states[m]) == 1
  }

  ghost predicate NeutralUpTo(events: seq<Event>, n: nat)
    requires n <= |events|
  {
    forall i :: 0 <= i < n ==> Neutral(events[i])
  }

  /** A slot has exactly one receive posted or awaiting handling all along a run if and only if every event is
      neutral: no packet through ReceivePacket whose repost is accepted, no too-small packet whose two reposts both
      succeed or both fail, no refused repost of a full-size packet, no failed receive. */
  lemma {:induction false} CreditsExactlyOneIff(states: seq<Slot>, events: seq<Event>, n: nat)
    requires SlotRun(states, events) && n < |states|
    ensures OneUpTo(states, n) <==> NeutralUpTo(events, n)
  {
    if n > 0 {
      CreditsExactlyOneIff(states, events, n - 1);
      NeutralKeepsCredits(states[n - 1], events[n - 1]);
      assert OneUpTo(states, n) <==> OneUpTo(states, n - 1) && Credits(states[n]) == 1;
      assert NeutralUpTo(events, n) <==> NeutralUpTo(events, n - 1) && Neutral(events[n - 1]);
      assert OneUpTo(states, n - 1) ==> Credits(states[n - 1]) == 1;
    }
  }

  /** What handleRecvCompletion does with a completion. */
  datatype Route = NoSlot | Discarded | ToHandler | ToChannel | ChannelFull

  /** What ReceivePacket returns: a bad GRH, a payload too small to deserialize, or a packet. */
  datatype Outcome = BadGrh | TooShort | Packet

  class UDQueue {
    const sender: bool
    const hasHandler: bool
    const recvSlots: array<nat>
    const sendSlots: array<nat>
    var nextRecvSlot: nat
    var nextSendSlot: nat
    var slots: seq<Slot>
    var recvChan: seq<Recv>
    /** Send slots allocated and not yet completed, oldest first. */
    ghost var sending: seq<nat>
    /** Every WRID ever posted to the receive queue and to the send queue: completions carry no others. */
    ghost var recvWrids: set<int>
    ghost var sendWrids: set<int>

    /** Receive and send WRIDs lie in two separate ranges. */
    ghost predicate WridsOk()
      reads `recvWrids, `sendWrids
    {
      && (forall w :: w in recvWrids ==> 0 <= w < NUM_SLOTS)
      && (forall w :: w in sendWrids ==> NUM_SLOTS <= w < 2 * NUM_SLOTS)
    }

    /** Slot i of a buffer starts at base + i * SLOT_SIZE. */
    ghost predicate Layout(a: array<nat>, base: nat)
      reads a
    {
      a.Length == NUM_SLOTS && forall i :: 0 <= i < NUM_SLOTS ==> a[i] == base + i * SLOT_SIZE
    }

    /** The receive channel only takes packets of full size that are not for the ACK handler. */
    predicate Queueable(rc: Recv)
    {
      IsSlot(rc.wrid) && !TooSmall(rc) && !(sender && hasHandler && rc.isAck)
    }

    ghost predicate ChannelOk()
      reads `recvChan
    {
      |recvChan| <= RECV_CHAN_SIZE && forall i :: 0 <= i < |recvChan| ==> Queueable(recvChan[i])
    }

    /** The unfinished sends hold the last slots handed out, in turn. */
    ghost predicate RingOk()
      reads `sending, `nextSendSlot
    {
      && |sending| <= nextSendSlot
      && forall i :: 0 <= i < |sending| ==> sending[i] == (nextSendSlot - |sending| + i) % NUM_SLOTS
    }

    /** What every operation keeps: the credit law for every slot, with no repost outstanding. */
    ghost predicate Valid()
      reads this
    {
      && |slots| == NUM_SLOTS
      && (forall k :: 0 <= k < NUM_SLOTS ==> Balanced(slots[k]) && slots[k].owed == 0)
      && ChannelOk() && RingOk() && WridsOk()
    }

    /** CreateUDQueue: the two slot arrays. Receives are posted by PostInitial. */
    constructor (sender: bool, hasHandler: bool, recvBase: nat, sendBase: nat)
      ensures this.sender == sender && this.hasHandler == hasHandler
      ensures fresh(recvSlots) && fresh(sendSlots)
      ensures Layout(recvSlots, recvBase) && Layout(sendSlots, sendBase)
      ensures recvSlots.Length == sendSlots.Length == 32
      ensures forall i :: 0 <= i < 32 ==>
                recvSlots[i] == recvBase + i * (4096 + 40) && sendSlots[i] == sendBase + i * (4096 + 40)
      ensures slots == seq(NUM_SLOTS, _ => EMPTY_SLOT) && recvChan == [] && sending == []
      ensures nextRecvSlot == nextSendSlot == 0 && recvWrids == sendWrids == {}
    {
      this.sender, this.hasHandler := sender, hasHandler;
      var r, s := new nat[NUM_SLOTS], new nat[NUM_SLOTS];
      for i := 0 to NUM_SLOTS
        invariant forall k :: 0 <= k < i ==> r[k] == recvBase + k * SLOT_SIZE
      {
        r[i] := recvBase + i * SLOT_SIZE;
      }
      for i := 0 to NUM_SLOTS
        invariant forall k :: 0 <= k < i ==> s[k] == sendBase + k * SLOT_SIZE
        invariant forall k :: 0 <= k < NUM_SLOTS ==> r[k] == recvBase + k * SLOT_SIZE
      {
        s[i] := sendBase + i * SLOT_SIZE;
      }
      recvSlots, sendSlots := r, s;
      nextRecvSlot, nextSendSlot, recvChan, sending, recvWrids, sendWrids := 0, 0, [], [], {}, {};
      slots := seq(NUM_SLOTS, _ => EMPTY_SLOT);
    }

    /** The initial posts, one per slot; the first refusal makes queue creation fail. */
    method PostInitial(accepted: seq<bool>) returns (ok: bool)
      requires |accepted| == NUM_SLOTS
      requires slots == seq(NUM_SLOTS, _ => EMPTY_SLOT) && recvChan == [] && sending == []
      requires recvWrids == sendWrids == {}
      modifies `slots, `recvWrids
      ensures ok <==> forall i :: 0 <= i < NUM_SLOTS ==> accepted[i]
      ensures ok ==> Valid() && forall k :: 0 <= k < NUM_SLOTS ==> slots[k] == EMPTY_SLOT.(posted := 1)
    {
      for i := 0 to NUM_SLOTS
        invariant |slots| == NUM_SLOTS && WridsOk()
        invariant forall k :: 0 <= k < i ==> accepted[k]
        invariant forall k :: 0 <= k < NUM_SLOTS ==> slots[k] == if k < i then EMPTY_SLOT.(posted := 1) else EMPTY_SLOT
      {
        var posted := PostRecvSlot(i, accepted[i]);
        if !posted {
          return false;
        }
      }
      ok := true;
    }

    /** PostRecvSlot: the slot number is the WRID, so no other WRID is ever posted; the NIC may refuse. */
    method PostRecvSlot(slot: int, accepted: bool) returns (ok: bool)
      requires |slots| == NUM_SLOTS
      modifies `slots, `recvWrids
      ensures ok <==> 0 <= slot < NUM_SLOTS && accepted
      ensures recvWrids == if ok then old(recvWrids) + {slot} else old(recvWrids)
      ensures slots == if IsSlot(slot) then old(slots)[slot := Posted(old(slots)[slot], accepted)] else old(slots)
    {
      if slot < 0 || slot >= NUM_SLOTS {
        return false;
      }
      slots := slots[slot := Posted(slots[slot], accepted)];
      ok := accepted;
      if ok {
        recvWrids := recvWrids + {slot};
      }
    }

    /** PostRecv: the next slot in turn, the fallback for completions whose WRID is no slot. */
    method PostRecv(accepted: bool) returns (ok: bool)
      requires Valid()
      modifies `slots, `nextRecvSlot, `recvWrids
      ensures Valid() && old(recvWrids) <= recvWrids && nextRecvSlot == old(nextRecvSlot) + 1 && ok == accepted
      ensures var k := old(nextRecvSlot) % NUM_SLOTS; slots == old(slots)[k := Strayed(old(slots)[k], accepted)]
    {
      var slot := nextRecvSlot % NUM_SLOTS;
      nextRecvSlot := nextRecvSlot + 1;
      slots := slots[slot := slots[slot].(stray := slots[slot].stray + 1)];
      ok := PostRecvSlot(slot, accepted);
    }

    /** The NIC fills a posted receive. */
    method NicReceive(slot: nat)
      requires Valid() && slot in recvWrids && slots[slot].posted > 0
      modifies `slots
      ensures Valid()
      ensures slots == old(slots)[slot := Filled(old(slots)[slot])]
    {
      var s := slots[slot];
      slots := slots[slot := s.(posted := s.posted - 1, awaiting := s.awaiting + 1)];
    }

    /** A repost the handler at work owes. */
    method Repost(slot: nat, accepted: bool)
      requires |slots| == NUM_SLOTS && slot < NUM_SLOTS && slots[slot].owed > 0 && WridsOk()
      modifies `slots, `recvWrids
      ensures WridsOk() && old(recvWrids) <= recvWrids
      ensures slots == old(slots)[slot := Posted(old(slots)[slot], accepted).(owed := old(slots)[slot].owed - 1)]
    {
      var ok := PostRecvSlot(slot, accepted);
      slots := slots[slot := slots[slot].(owed := slots[slot].owed - 1)];
    }

    /** processSingleWC and handleRecvCompletion for a successful receive: who gets the packet, and how often
        the slot is reposted. A packet that is too small is reposted twice, once by each function, and a WRID that
        is no slot makes both of them fall back to PostRecv; but a WRID that was posted is always a slot. */
    method ProcessRecv(rc: Recv, first: bool, second: bool) returns (route: Route)
      requires Valid() && (IsSlot(rc.wrid) ==> slots[rc.wrid].awaiting > 0)
      modifies `slots, `recvChan, `recvWrids, `nextRecvSlot
      ensures Valid() && old(recvWrids) <= recvWrids
      ensures route.NoSlot? <==> !IsSlot(rc.wrid)
      ensures rc.wrid in old(recvWrids) ==> !route.NoSlot? && nextRecvSlot == old(nextRecvSlot)
      ensures route.NoSlot? ==> nextRecvSlot == old(nextRecvSlot) + 2
      ensures route.Discarded? <==> 0 <= rc.wrid < 32 && rc.byteLen < (if rc.grh then 80 else 40)
      ensures route.ToHandler? <==>
                0 <= rc.wrid < 32 && rc.byteLen >= (if rc.grh then 80 else 40) && sender && hasHandler && rc.isAck
      ensures route.ChannelFull? || route.ToChannel? ==> (route.ToChannel? <==> |old(recvChan)| < 100)
      ensures recvChan == if route.ToChannel? then old(recvChan) + [rc] else old(recvChan)
      ensures route.ChannelFull? ==> |recvChan| == RECV_CHAN_SIZE
      ensures IsSlot(rc.wrid) ==>
                slots == old(slots)[rc.wrid := Handled(old(slots)[rc.wrid], TooSmall(rc), first, second)]
      ensures IsSlot(rc.wrid) ==> Reposted(old(slots)[rc.wrid], slots[rc.wrid], TooSmall(rc), first, second)
    {
      if rc.wrid < 0 || rc.wrid >= NUM_SLOTS {
        var _ := PostRecv(first);
        var _ := PostRecv(second);
        return NoSlot;
      }
      HandledReposts(slots[rc.wrid], TooSmall(rc), first, second);
      TooSmallBytes(rc);
      route := ProcessSlot(rc, first, second);
    }

    /** The same for a WRID that is a slot. */
    method ProcessSlot(rc: Recv, first: bool, second: bool) returns (route: Route)
      requires Valid() && IsSlot(rc.wrid) && slots[rc.wrid].awaiting > 0
      modifies `slots, `recvChan, `recvWrids
      ensures Valid() && old(recvWrids) <= recvWrids && !route.NoSlot?
      ensures route.Discarded? <==> TooSmall(rc)
      ensures route.ToHandler? <==> !TooSmall(rc) && sender && hasHandler && rc.isAck
      ensures recvChan == if route.ToChannel? then old(recvChan) + [rc] else old(recvChan)
      ensures route.ChannelFull? ==> |recvChan| == RECV_CHAN_SIZE
      ensures slots == old(slots)[rc.wrid := Handled(old(slots)[rc.wrid], TooSmall(rc), first, second)]
      ensures route.ChannelFull? || route.ToChannel? ==> (route.ToChannel? <==> |old(recvChan)| < RECV_CHAN_SIZE)
    {
      var s := slots[rc.wrid];
      if TooSmall(rc) {
        slots := slots[rc.wrid := s.(awaiting := s.awaiting - 1, owed := 2, small := s.small + 1)];
        Repost(rc.wrid, first);
        Repost(rc.wrid, second);
        route := Discarded;
      } else {
        slots := slots[rc.wrid := s.(awaiting := s.awaiting - 1, owed := 1)];
        if sender && hasHandler && rc.isAck {
          route := ToHandler;
        } else if |recvChan| < RECV_CHAN_SIZE {
          recvChan := recvChan + [rc];
          route := ToChannel;
        } else {
          route := ChannelFull;
        }
        Repost(rc.wrid, first);
      }
    }

    /** handleWCError for a receive: the error is reported and nothing is reposted. */
    method ProcessRecvError(slot: nat)
      requires Valid() && slot in recvWrids && slots[slot].awaiting > 0
      modifies `slots
      ensures Valid()
      ensures slots == old(slots)[slot := Errored(old(slots)[slot])]
    {
      var s := slots[slot];
      slots := slots[slot := s.(awaiting := s.awaiting - 1, errors := s.errors + 1)];
    }

    /** ReceivePacket: take the oldest queued completion and repost its slot, although processSingleWC has already
        done so; a bad GRH returns before the repost. Nothing in the channel is too small or without a slot, so
        the packet is deserialized and the fallback posts are not made. */
    method ReceivePacket(grhOk: bool, accepted: bool) returns (rc: Recv, outcome: Outcome)
      requires Valid() && recvChan != []
      modifies `slots, `recvChan, `recvWrids, `nextRecvSlot
      ensures Valid() && rc == old(recvChan)[0] && recvChan == old(recvChan)[1..]
      ensures Queueable(rc) && nextRecvSlot == old(nextRecvSlot)
      ensures outcome == if rc.grh && !grhOk then BadGrh else Packet
      ensures slots == if outcome.Packet? then old(slots)[rc.wrid := Consumed(old(slots)[rc.wrid], accepted)]
                       else old(slots)
    {
      rc := recvChan[0];
      assert Queueable(rc);
      recvChan := recvChan[1..];
      outcome := ParsePacket(rc, grhOk, accepted);
    }

    /** The rest of ReceivePacket, for any completion: `grhOk` says whether the GRH parses. */
    method ParsePacket(rc: Recv, grhOk: bool, accepted: bool) returns (outcome: Outcome)
      requires Valid()
      modifies `slots, `recvWrids, `nextRecvSlot
      ensures Valid()
      ensures outcome.BadGrh? <==> rc.grh && (rc.byteLen < GRH_SIZE || !grhOk)
      ensures outcome.TooShort? <==> TooSmall(rc) && !outcome.BadGrh?
      ensures outcome.BadGrh? ==> slots == old(slots)
      ensures !outcome.BadGrh? && IsSlot(rc.wrid) ==>
                slots == old(slots)[rc.wrid := Consumed(old(slots)[rc.wrid], accepted)]
      ensures outcome.BadGrh? || IsSlot(rc.wrid) ==> nextRecvSlot == old(nextRecvSlot)
    {
      if rc.grh && (rc.byteLen < GRH_SIZE || !grhOk) {
        return BadGrh;
      }
      var payload := if rc.grh then rc.byteLen - GRH_SIZE else rc.byteLen;
      if payload < PACKET_SIZE {
        ReturnSlot(rc, accepted);
        return TooShort;
      }
      ReturnSlot(rc, accepted);
      outcome := Packet;
    }

    /** Post the packet's own slot again, or the next slot in turn if its WRID is none. */
    method ReturnSlot(rc: Recv, accepted: bool)
      requires Valid()
      modifies `slots, `recvWrids, `nextRecvSlot
      ensures Valid()
      ensures IsSlot(rc.wrid) ==> nextRecvSlot == old(nextRecvSlot)
      ensures IsSlot(rc.wrid) ==> slots == old(slots)[rc.wrid := Consumed(old(slots)[rc.wrid], accepted)]
      ensures !IsSlot(rc.wrid) ==> nextRecvSlot == old(nextRecvSlot) + 1
    {
      if 0 <= rc.wrid < NUM_SLOTS {
        slots := slots[rc.wrid := slots[rc.wrid].(consumed := slots[rc.wrid].consumed + 1, owed := 1)];
        Repost(rc.wrid, accepted);
      } else {
        var _ := PostRecv(accepted);
      }
    }

    /** GetNextSendSlot: the slot handed out still belongs to an unfinished send exactly when as many sends
        as there are slots are outstanding; its WRID is never a receive slot. */
    method GetNextSendSlot() returns (slot: nat, wrid: nat)
      requires Valid()
      modifies `nextSendSlot, `sending, `sendWrids
      ensures Valid() && sending == old(sending) + [slot] && sendWrids == old(sendWrids) + {wrid} && wrid !in recvWrids
      ensures slot < 32 && wrid == slot + 32 && nextSendSlot == old(nextSendSlot) + 1
      ensures slot in old(sending) <==> |old(sending)| >= NUM_SLOTS
    {
      slot := nextSendSlot % NUM_SLOTS;
      wrid := slot + NUM_SLOTS;
      if |sending| >= NUM_SLOTS {
        assert sending[|sending| - NUM_SLOTS] == (nextSendSlot - NUM_SLOTS) % NUM_SLOTS == slot;
      }
      nextSendSlot := nextSendSlot + 1;
      sending := sending + [slot];
      sendWrids := sendWrids + {wrid};
    }

    /** Sends complete oldest first. */
    ghost method CompleteSend()
      requires Valid() && sending != []
      modifies `sending
      ensures Valid() && sending == old(sending)[1..]
    {
      sending := sending[1..];
    }
  }

  /** Slot regions of one buffer, receive or send, never overlap and stay inside the 32 * 4136 allocated bytes; each
      holds the 4096 + 40 bytes a receive is posted with. */
  lemma SlotsDisjoint(q: UDQueue, a: array<nat>, base: nat, i: nat, j: nat)
    requires q.Layout(a, base) && i < j < a.Length
    ensures a.Length == 32
    ensures base <= a[i] && a[i] + (4096 + 40) <= a[j]
    ensures a[j] + (4096 + 40) <= base + 32 * 4136
  {
    assert a[j] - a[i] == (j - i) * SLOT_SIZE;
  }

  /** A receive is too small when a packet of 40 bytes does not fit, behind a header of 40 bytes if there is one. */
  lemma TooSmallBytes(rc: Recv)
    ensures TooSmall(rc) <==> rc.byteLen < (if rc.grh then 80 else 40)
  {
  }
}

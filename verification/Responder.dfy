/** The responder loop's reaction to one received packet and its counters. */
module Responder {
  import opened Collections
  import opened Sessions
  import Protocol

  /** A packet as ReceivePacket returns it: probe or ACK, with the source read from its completion. */
  datatype Packet = Packet(num: nat, t1: int, isAck: bool, flow: nat, sgid: string, srcQpn: nat)

  /** How posting an ACK went: not posted, posted but its completion failed or timed out, or completed
      at a NIC time. */
  datatype SendOutcome = NotPosted | Lost | Completed(at: int)

  predicate UsableSource(p: Packet)
  {
    p.sgid != "" && p.sgid != "::" && p.srcQpn != 0
  }

  /** The responder at `gid` working on this packet, as a job of the step system: NIC readings less the clock's
      offset are true times. */
  function JobOf(c: Protocol.Config, gid: string, p: Packet, t3: int, first: SendOutcome): Protocol.Job
  {
    Protocol.Job(Protocol.Probe(p.num, p.t1, p.flow, p.sgid, gid), t3 - c.clock(gid),
                 if first.Completed? then Some(first.at - c.clock(gid)) else None, None)
  }

  class Loop {
    var totalPackets: nat
    var probePackets: nat
    var invalidPackets: nat
    var errorPackets: nat
    ghost var acksPosted: nat

    /** No more than two ACKs per probe, none for ACKs or probes without a usable source. */
    ghost predicate Valid()
      reads this
    {
      acksPosted <= 2 * (probePackets - invalidPackets) && invalidPackets <= probePackets <= totalPackets
    }

    constructor ()
      ensures Valid() && totalPackets == probePackets == invalidPackets == errorPackets == acksPosted == 0
    {
      totalPackets, probePackets, invalidPackets, errorPackets, acksPosted := 0, 0, 0, 0, 0;
    }

    /** One packet: the ACKs posted on the wire, in order. The second is sent only after the first
        completed, and carries that completion time as T4. */
    method HandlePacket(p: Packet, t3: int, first: SendOutcome, second: SendOutcome,
                        ghost c: Protocol.Config, ghost gid: string)
      returns (acks: seq<Ack>)
      requires Valid()
      modifies this
      ensures Valid() && totalPackets == old(totalPackets) + 1
      ensures p.isAck ==> acks == [] && probePackets == old(probePackets)
      ensures !p.isAck ==> probePackets == old(probePackets) + 1
      ensures p.sgid == "" || p.sgid == "::" || p.srcQpn == 0 ==> acks == []
      ensures invalidPackets == old(invalidPackets)
        + (if !p.isAck && (p.sgid == "" || p.sgid == "::" || p.srcQpn == 0) then 1 else 0)
      ensures forall a :: a in acks ==> a.num == p.num && a.t1 == p.t1 && a.t3 == t3
      ensures |acks| <= 2 && (|acks| >= 1 <==>
                !p.isAck && p.sgid != "" && p.sgid != "::" && p.srcQpn != 0 && !first.NotPosted?)
      ensures |acks| >= 1 ==> acks[0].ackType == 1 && acks[0].t4 == 0
      ensures |acks| == 2 <==> |acks| >= 1 && first.Completed? && !second.NotPosted?
      ensures |acks| == 2 ==> acks[1].ackType == 2 && acks[1].t4 == first.at
      ensures var j := JobOf(c, gid, p, t3, first);
        && (first.Completed? ==> acks <= [Protocol.FirstAck(c, j), Protocol.SecondAck(c, j)])
        && (!first.Completed? ==> acks <= [Protocol.FirstAck(c, j)])
      ensures acksPosted == old(acksPosted) + |acks|
      ensures errorPackets == old(errorPackets)
        + (if p.isAck || !UsableSource(p) || (first.Completed? && second.Completed?) then 0 else 1)
    {
      acks := [];
      totalPackets := totalPackets + 1;
      if p.isAck {
        return;
      }
      probePackets := probePackets + 1;
      if !UsableSource(p) {
        invalidPackets := invalidPackets + 1;
        return;
      }
      if !first.NotPosted? {
        acks := acks + [Ack(p.num, p.t1, t3, 0, 1)];
        acksPosted := acksPosted + 1;
      }
      if !first.Completed? {
        errorPackets := errorPackets + 1;
        return;
      }
      if !second.NotPosted? {
        acks := acks + [Ack(p.num, p.t1, t3, first.at, 2)];
        acksPosted := acksPosted + 1;
      }
      if !second.Completed? {
        errorPackets := errorPackets + 1;
      }
    }
  }
}

/** The two-ACK probe protocol as a step system: the prober's goroutines, the session table, the
    responders and a network that may lose or reorder packets and repeat ACKs. */
module Protocol {
  import opened Collections
  import opened Sessions
  import opened Waiting

  /** Clock readings are true time plus a constant: `app` for the prober's application clock, `clock(gid)` for
      the NIC with that GID, on either side. */
  datatype Config = Config(app: int, clock: string -> int)

  /** Where a ProbeTarget call is. Allocated and Stored are the points inside addSession. */
  datatype Phase =
    | Allocated
    | Stored
    | Registered
    | Sending(t1: int)
    | Awaiting(t1: int, t2: int, w: Wait)
    | Concluded(r: Result, w: Wait)
    | Published(r: Result, w: Wait)

  /** What is fixed when a call starts: sending RNIC, destination, label on the wire, whether there is a sender
      queue, and when the call's context ends. */
  datatype Route = Route(src: string, dst: string, flow: nat, queue: bool, deadline: int)

  /** The sending side of one probe: whether its send met an error, T1 once posted and the true time at which
      the NIC sent the packet. */
  datatype Net = Net(route: Route, broken: bool, sentAt: Option<int>, departed: Option<int>)

  datatype Probe = Probe(num: nat, t1: int, flow: nat, src: string, dst: string)

  /** A responder's work on one probe: true receive time and, once sent, the true times at which the first and
      the second ACK left. */
  datatype Job = Job(pkt: Probe, t3: int, t4: Option<int>, second: Option<int>)

  /** An ACK on the wire: its label, the responder it comes from, the RNIC it goes to and when it left. */
  datatype Frame = Frame(pkt: Ack, flow: nat, sgid: string, to: string, left: int)

  datatype Wire = Wire(air: set<Probe>, jobs: map<nat, Job>, acks: set<Frame>)

  datatype Stats = Stats(created: nat, ok: nat, timeouts: nat, failed: nat, noQueue: nat,
                         byFlow: nat, bySeq: nat, notFound: nat, probesReceived: nat, acksSent: nat)

  /** The results channel: how many results it holds, and whether Close has closed it. */
  datatype Outbox = Outbox(pending: nat, closed: bool)

  const RESULT_CAPACITY: nat := 1000

  predicate HasRoom(box: Outbox)
  {
    box.pending < RESULT_CAPACITY && !box.closed
  }

  /** `dropping` and `closing` hold the sessions whose removal has done its first, or first two, of
      three operations. `shut` is set once Close has started. */
  datatype State = State(now: int, table: Table, phases: seq<Phase>, nets: seq<Net>,
                         dropping: set<nat>, closing: set<nat>, shut: bool,
                         wire: Wire, stats: Stats, results: seq<(nat, Result)>, outbox: Outbox)

  /** The steps of one ProbeTarget call after its session object exists. */
  datatype Action =
    | Store
    | Index
    | NoQueue
    | Post
    | SendFails
    | SendReturns
    | TakeAck1
    | TakeAck2
    | Expire
    | SeeClosed(second: bool)
    | Finish
    | Publish

  datatype Step =
    | Start(src: string, tgt: string, flowLabel: nat, route: Route)
    | Call(i: nat, a: Action)
    | Transmit(i: nat)
    | Break(i: nat)
    | RecvProbe(pkt: Probe, validSource: bool)
    | SendAck1(n: nat)
    | SendAck2(n: nat)
    | HandleAck(frame: Frame, arrived: int, seenFlow: nat, seenGid: string, statusOk: bool, found: Option<nat>)
    | UnlinkOne(i: nat)
    | DropOne(i: nat)
    | CloseOne(i: nat)
    | BeginClose
    | ShutClose(i: nat)
    | ShutDelete(i: nat)
    | ShutIndex(n: nat)
    | ShutResults
    | Consume
    | Tick(d: nat)

  const INITIAL: State :=
    State(0, Table(map[], map[], []), [], [], {}, {}, false,
          Wire({}, map[], {}), Stats(0, 0, 0, 0, 0, 0, 0, 0, 0, 0), [], Outbox(0, false))

  /** The packet SendProbePacket builds for probe i. */
  function PacketOf(net: Net, i: nat): Probe
  {
    Probe(i + 1, if net.sentAt.Some? then net.sentAt.value else 0, net.route.flow, net.route.src, net.route.dst)
  }

  /** SendFirstAckPacket: sequence number and T1 copied, T3 recorded, T4 not known. */
  function FirstAck(c: Config, j: Job): Ack
  {
    Ack(j.pkt.num, j.pkt.t1, j.t3 + c.clock(j.pkt.dst), 0, 1)
  }

  /** SendSecondAckPacket: T4 is the send completion time of the first ACK. */
  function SecondAck(c: Config, j: Job): Ack
    requires j.t4.Some?
  {
    Ack(j.pkt.num, j.pkt.t1, j.t3 + c.clock(j.pkt.dst), j.t4.value + c.clock(j.pkt.dst), 2)
  }

  /** The step belongs at this place of ProbeTarget, and the channel it reads has something to read. */
  predicate InPlace(ph: Phase, net: Net, o: Session, a: Action)
  {
    match a
    case Store => ph.Allocated?
    case Index => ph.Stored?
    case NoQueue => ph.Registered?
    case Post => ph.Registered?
    case SendFails => ph.Registered? || ph.Sending?
    case SendReturns => ph.Sending? && net.departed.Some?
    case TakeAck1 => ph.Awaiting? && !BothReceived(ph.w) && o.ack1.Some?
    case TakeAck2 => ph.Awaiting? && !BothReceived(ph.w) && o.ack2.Some?
    case Expire => ph.Awaiting? && !BothReceived(ph.w)
    case SeeClosed(second) =>
      ph.Awaiting? && !BothReceived(ph.w) && o.closed && (if second then o.ack2.None? else o.ack1.None?)
    case Finish => ph.Awaiting? && BothReceived(ph.w)
    case Publish => ph.Concluded?
  }

  /** What else the step waits for: a queue or none, an error or the end of the context, room in the results
      channel (a send on a closed channel panics). */
  predicate Open(now: int, box: Outbox, ph: Phase, net: Net, a: Action)
  {
    match a
    case NoQueue => !net.route.queue
    case Post => net.route.queue
    case SendFails => net.route.queue && (ph.Registered? || net.broken || now >= net.route.deadline)
    case Expire => now >= net.route.deadline
    case Publish => HasRoom(box)
    case _ => true
  }

  /** Call i can take this step now. */
  predicate Ready(s: State, i: nat, a: Action)
  {
    && InRange(s, i) && InPlace(s.phases[i], s.nets[i], s.table.objs[i], a)
    && Open(s.now, s.outbox, s.phases[i], s.nets[i], a)
  }

  predicate InRange(s: State, i: nat)
  {
    i < |s.phases| && i < |s.nets| && i < |s.table.objs|
  }

  ghost predicate Enabled(s: State, st: Step)
  {
    match st
    case Start(_, _, _, _) => true
    case Call(i, a) => Ready(s, i, a)
    case Transmit(i) => InRange(s, i) && s.nets[i].sentAt.Some? && s.nets[i].departed.None?
    case Break(i) => InRange(s, i)
    case RecvProbe(pkt, _) => pkt in s.wire.air
    case SendAck1(n) => n in s.wire.jobs && s.wire.jobs[n].t4.None?
    case SendAck2(n) => n in s.wire.jobs && s.wire.jobs[n].t4.Some? && s.wire.jobs[n].second.None?
    case HandleAck(f, at, flow, gid, _, r) =>
      f in s.wire.acks && f.left <= at <= s.now && TableInv(s.table) && RouteOutcome(s.table, flow, f.pkt.num, gid, r)
    case UnlinkOne(i) =>
      InRange(s, i) && Live(s.table, i)
      && (s.phases[i].Published? || s.now - s.table.objs[i].id.created > SESSION_TIMEOUT)
    case DropOne(i) => i in s.dropping && InRange(s, i)
    case CloseOne(i) => i in s.closing && InRange(s, i)
    case BeginClose => true
    case ShutClose(i) => s.shut && Live(s.table, i)
    case ShutDelete(i) => s.shut && Live(s.table, i)
    case ShutIndex(n) => s.shut && n in s.table.index
    case ShutResults => s.shut
    case Consume => s.outbox.pending > 0
    case Tick(_) => true
  }

  /** The call's next place. */
  function NextPhase(c: Config, now: int, ph: Phase, net: Net, o: Session, a: Action): Phase
    requires InPlace(ph, net, o, a)
  {
    match a
    case Store => Stored
    case Index => Registered
    case NoQueue => Concluded(Failed(ERROR, None, None, None), NO_ACKS)
    case Post => Sending(now + c.app)
    case SendFails => Concluded(Failed(ERROR, None, None, None), NO_ACKS)
    case SendReturns => Awaiting(ph.t1, net.departed.value + c.clock(net.route.src), NO_ACKS)
    case TakeAck1 => Awaiting(ph.t1, ph.t2, Take1(ph.w, o.ack1.value))
    case TakeAck2 => Awaiting(ph.t1, ph.t2, Take2(ph.w, o.ack2.value))
    case Expire => Concluded(Failed(TIMEOUT, Some(ph.t1), Some(ph.t2), ph.w.t5), ph.w)
    case SeeClosed(_) => Concluded(Failed(ERROR, Some(ph.t1), Some(ph.t2), ph.w.t5), ph.w)
    case Finish => Concluded(Conclude(ph.t1, ph.t2, ph.w, now + c.app), ph.w)
    case Publish => Published(ph.r, ph.w)
  }

  /** What the step does to the session table. */
  function NextTable(t: Table, i: nat, a: Action): Table
    requires i < |t.objs|
  {
    match a
    case Store => StoreSession(t, i)
    case Index => StoreIndex(t, i)
    case TakeAck1 => t.(objs := t.objs[i := t.objs[i].(ack1 := None)])
    case TakeAck2 => t.(objs := t.objs[i := t.objs[i].(ack2 := None)])
    case _ => t
  }

  /** Which counter the step increments. */
  function NextStats(st: Stats, a: Action): Stats
  {
    match a
    case Index => st.(created := st.created + 1)
    case NoQueue => st.(noQueue := st.noQueue + 1)
    case SendFails => st.(failed := st.failed + 1)
    case SeeClosed(_) => st.(failed := st.failed + 1)
    case Expire => st.(timeouts := st.timeouts + 1)
    case Finish => st.(ok := st.ok + 1)
    case _ => st
  }

  function AfterCall(c: Config, s: State, i: nat, a: Action): State
    requires Ready(s, i, a)
  {
    s.(phases := s.phases[i := NextPhase(c, s.now, s.phases[i], s.nets[i], s.table.objs[i], a)],
       table := NextTable(s.table, i, a),
       nets := if a.Post? then s.nets[i := s.nets[i].(sentAt := Some(s.now + c.app))] else s.nets,
       stats := NextStats(s.stats, a),
       results := if a.Publish? then s.results + [(i, s.phases[i].r)] else s.results,
       outbox := if a.Publish? then s.outbox.(pending := s.outbox.pending + 1) else s.outbox)
  }

  /** The responder takes a probe off the wire; it answers only probes with a usable source. */
  function AfterRecv(s: State, pkt: Probe, valid: bool): State
  {
    s.(wire := s.wire.(air := s.wire.air - {pkt},
                       jobs := if valid then s.wire.jobs[pkt.num := Job(pkt, s.now, None, None)] else s.wire.jobs),
       stats := s.stats.(probesReceived := s.stats.probesReceived + 1))
  }

  function AfterAck1(c: Config, s: State, n: nat): State
    requires n in s.wire.jobs
  {
    var j := s.wire.jobs[n];
    s.(wire := s.wire.(jobs := s.wire.jobs[n := j.(t4 := Some(s.now))],
                       acks := s.wire.acks + {Frame(FirstAck(c, j), j.pkt.flow, j.pkt.dst, j.pkt.src, s.now)}),
       stats := s.stats.(acksSent := s.stats.acksSent + 1))
  }

  function AfterAck2(c: Config, s: State, n: nat): State
    requires n in s.wire.jobs && s.wire.jobs[n].t4.Some?
  {
    var j := s.wire.jobs[n];
    s.(wire := s.wire.(jobs := s.wire.jobs[n := j.(second := Some(s.now))],
                       acks := s.wire.acks + {Frame(SecondAck(c, j), j.pkt.flow, j.pkt.dst, j.pkt.src, s.now)}),
       stats := s.stats.(acksSent := s.stats.acksSent + 1))
  }

  /** HandleIncomingRDMAPacket with the session `r` the lookup found. */
  function AfterHandle(s: State, ev: Event, flow: nat, ok: bool, r: Option<nat>): State
    requires r.Some? ==> r.value < |s.table.objs|
  {
    if r.None? then s.(stats := s.stats.(notFound := s.stats.notFound + 1))
    else
      var o := s.table.objs[r.value];
      s.(table := s.table.(objs := s.table.objs[r.value := Delivered(o, ev, ok)]),
         stats := if o.id.flow == flow then s.stats.(byFlow := s.stats.byFlow + 1)
                  else s.stats.(bySeq := s.stats.bySeq + 1))
  }

  /** The state after a step. */
  ghost function Apply(c: Config, s: State, st: Step): State
    requires Enabled(s, st)
  {
    match st
    case Start(src, tgt, flow, route) =>
      s.(table := s.table.(objs := s.table.objs + [NewSession(|s.table.objs| + 1, src, tgt, flow, s.now)]),
         phases := s.phases + [Allocated],
         nets := s.nets + [Net(route, false, None, None)])
    case Call(i, a) => AfterCall(c, s, i, a)
    case Transmit(i) =>
      s.(nets := s.nets[i := s.nets[i].(departed := Some(s.now))],
         wire := s.wire.(air := s.wire.air + {PacketOf(s.nets[i], i)}))
    case Break(i) => s.(nets := s.nets[i := s.nets[i].(broken := true)])
    case RecvProbe(pkt, valid) => AfterRecv(s, pkt, valid)
    case SendAck1(n) => AfterAck1(c, s, n)
    case SendAck2(n) => AfterAck2(c, s, n)
    case HandleAck(f, at, flow, _, ok, r) => AfterHandle(s, Event(f.pkt, at + c.clock(f.to)), flow, ok, r)
    case UnlinkOne(i) => s.(table := Unlink(s.table, i), dropping := s.dropping + {i})
    case DropOne(i) =>
      s.(table := DropIndex(s.table, i), dropping := s.dropping - {i}, closing := s.closing + {i})
    case CloseOne(i) => s.(table := CloseOnce(s.table, i), closing := s.closing - {i})
    case BeginClose => s.(shut := true)
    case ShutClose(i) => s.(table := CloseOnce(s.table, i))
    case ShutDelete(i) => s.(table := Unlink(s.table, i))
    case ShutIndex(n) => s.(table := s.table.(index := s.table.index - {n}))
    case ShutResults => s.(outbox := s.outbox.(closed := true))
    case Consume => s.(outbox := s.outbox.(pending := s.outbox.pending - 1))
    case Tick(d) => s.(now := s.now + d)
  }

  /** A run: every state follows from the one before by an enabled step. */
  ghost predicate IsRun(c: Config, states: seq<State>, steps: seq<Step>)
  {
    && |states| == |steps| + 1 && states[0] == INITIAL
    && forall k {:trigger steps[k]} :: 0 <= k < |steps| ==>
         Enabled(states[k], steps[k]) && states[k + 1] == Apply(c, states[k], steps[k])
  }

  /** In this step, if it handles an ACK, no live session but that ACK's own has the label seen. */
  ghost predicate StepOwnsLabel(s: State, st: Step)
  {
    st.HandleAck? ==> LabelOwned(s.table, st.seenFlow, st.frame.pkt.num)
  }

  ghost predicate OwnedRun(c: Config, states: seq<State>, steps: seq<Step>)
  {
    && IsRun(c, states, steps)
    && forall k {:trigger steps[k]} :: 0 <= k < |steps| ==> StepOwnsLabel(states[k], steps[k])
  }

  /** The steps lead from `s` to `s'`. */
  ghost predicate Leads(c: Config, s: State, steps: seq<Step>, s': State)
    decreases |steps|
  {
    if steps == [] then s' == s
    else Enabled(s, steps[0]) && Leads(c, Apply(c, s, steps[0]), steps[1..], s')
  }

  lemma LeadsFirst(c: Config, s: State, st: Step, rest: seq<Step>, s': State)
    requires Enabled(s, st) && Leads(c, Apply(c, s, st), rest, s')
    ensures Leads(c, s, [st] + rest, s')
  {
    assert ([st] + rest)[1..] == rest;
  }

  lemma CallFirst(c: Config, s: State, i: nat, a: Action, rest: seq<Step>, s': State)
    requires Ready(s, i, a)
    requires Leads(c, AfterCall(c, s, i, a), rest, s')
    ensures Leads(c, s, [Call(i, a)] + rest, s')
  {
    LeadsFirst(c, s, Call(i, a), rest, s');
  }

  lemma {:induction false} LeadsOn(c: Config, s: State, a: seq<Step>, s1: State, b: seq<Step>, s2: State)
    requires Leads(c, s, a, s1) && Leads(c, s1, b, s2)
    ensures Leads(c, s, a + b, s2)
    decreases |a|
  {
    if a == [] {
      assert a + b == b;
    } else {
      LeadsOn(c, Apply(c, s, a[0]), a[1..], s1, b, s2);
      assert (a + b)[1..] == a[1..] + b;
    }
  }

  /** The states passed by steps that lead from `s` to `s'`. */
  lemma {:induction false} LeadsPath(c: Config, s: State, steps: seq<Step>, s': State) returns (states: seq<State>)
    requires Leads(c, s, steps, s')
    ensures |states| == |steps| + 1 && states[0] == s && states[|steps|] == s'
    ensures forall k :: 0 <= k < |steps| ==>
              Enabled(states[k], steps[k]) && states[k + 1] == Apply(c, states[k], steps[k])
    decreases |steps|
  {
    if steps == [] {
      states := [s];
    } else {
      var next := Apply(c, s, steps[0]);
      var rest := LeadsPath(c, next, steps[1..], s');
      states := [s] + rest;
      forall k | 0 <= k < |steps|
        ensures Enabled(states[k], steps[k]) && states[k + 1] == Apply(c, states[k], steps[k])
      {
        if k > 0 {
          assert steps[k] == steps[1..][k - 1] && states[k] == rest[k - 1] && states[k + 1] == rest[k];
        }
      }
    }
  }
}

/** The service-flow monitor: the map of active flows, its mirror in the prober's target list, and what the map holds
    after any history of QP events. */
module ServiceFlows {
  import Keys

  const IB_QPS_RTR: int := 3
  const ZERO_GID: string := "00000000000000000000000000000000"

  /** A flow's identity: the four fields its key is made of. */
  datatype FlowId = FlowId(src: string, srcQpn: nat, dst: string, dstQpn: nat)

  datatype Flow = Flow(id: FlowId, dstIp: string)

  function KeyOf(id: FlowId): string
  {
    Keys.FlowKey(id.src, id.srcQpn, id.dst, id.dstQpn)
  }

  datatype PingTarget = PingTarget(gid: string, qpn: nat, ip: string, tuple: FlowId, flowLabel: nat, probeType: string)

  /** A service-tracing target: its flow label is always 0. */
  function TargetOf(f: Flow): PingTarget
  {
    PingTarget(f.id.dst, f.id.dstQpn, f.dstIp, f.id, 0, "SERVICE_TRACING")
  }

  /** A GID as an event prints it: sixteen bytes in hexadecimal. */
  type HexGid = s: string | |s| == 32 && Keys.IsGidText(s) witness seq(32, _ => '0')

  /** A traced QP event. */
  datatype Event = Event(eventType: int, qpState: int, srcGid: HexGid, srcQpn: nat, dstGid: HexGid, dstQpn: nat)

  predicate Unset(gid: string)
  {
    gid == ZERO_GID || gid == ""
  }

  /** The target sends to the flow's destination, with the flow as its tuple and label 0. */
  ghost predicate Probes(t: PingTarget, f: Flow)
  {
    && t.gid == f.id.dst && t.qpn == f.id.dstQpn && t.ip == f.dstIp && t.tuple == f.id
    && t.flowLabel == 0 && t.probeType == "SERVICE_TRACING"
  }

  /** The source GID after the lookup of a local RNIC, which gives "" when it finds none. It is never empty, so
      a DESTROY never matches by QPN alone. */
  function Resolved(srcGid: HexGid, local: string): (r: string)
    ensures r != ""
    ensures !Unset(srcGid) || local == "" ==> r == srcGid
    ensures Unset(srcGid) && local != "" ==> r == local
  {
    if Unset(srcGid) && local != "" then local else srcGid
  }

  /** A MODIFY_QP event that establishes a flow. */
  predicate Establishes(e: Event, local: string)
  {
    && e.eventType == 2 && e.qpState == IB_QPS_RTR
    && !(Unset(e.srcGid) && local == "") && e.dstQpn != 0 && !Unset(e.dstGid)
  }

  function IdOf(e: Event, local: string): FlowId
  {
    FlowId(Resolved(e.srcGid, local), e.srcQpn, e.dstGid, e.dstQpn)
  }

  /** An event with what the monitor finds out when it handles it: the outcome of validation, the GID found for
      its source QP among the local RNICs, what the controller knows about the destination. `device` is the RNIC
      whose QP the event is about; the monitor does not see it. */
  datatype Traced = Traced(e: Event, valid: bool, local: string, ip: string, device: string)

  /** A lookup finds a GID in text, or nothing. */
  predicate LookupOk(t: Traced)
  {
    t.local == "" || (!Unset(t.local) && Keys.IsGidText(t.local))
  }

  /** The event adds a flow to the map. */
  predicate Adds(t: Traced)
  {
    t.valid && Establishes(t.e, t.local)
  }

  function SourceOf(t: Traced): string
  {
    Resolved(t.e.srcGid, t.local)
  }

  predicate MatchesSource(id: FlowId, src: string, qpn: nat)
  {
    id.srcQpn == qpn && (src == "" || id.src == src)
  }

  /** What a DESTROY_QP event does: at most one matching flow goes, whichever the map iteration meets first. */
  ghost predicate DestroyOutcome(m: map<string, Flow>, src: string, qpn: nat, m': map<string, Flow>)
  {
    (m' == m && forall k :: k in m ==> !MatchesSource(m[k].id, src, qpn))
    || exists k :: k in m && MatchesSource(m[k].id, src, qpn) && m' == m - {k}
  }

  /** What one event may do to the map. */
  ghost predicate Step(m: map<string, Flow>, t: Traced, m': map<string, Flow>)
  {
    if Adds(t) then m' == m[KeyOf(IdOf(t.e, t.local)) := Flow(IdOf(t.e, t.local), t.ip)]
    else if t.valid && t.e.eventType == 3 then DestroyOutcome(m, SourceOf(t), t.e.srcQpn, m')
    else m' == m
  }

  /** Every flow is stored under its own key, with its source resolved. */
  ghost predicate KeysOk(m: map<string, Flow>)
  {
    forall k :: k in m ==> k == KeyOf(m[k].id) && Keys.IsGidText(m[k].id.src) && !Unset(m[k].id.src)
  }

  /** The rule of the event handler on the event's own fields: a valid MODIFY to RTR (state 3) with a source, a
      destination QP and a destination GID stores that flow under its key; a valid DESTROY removes at most one flow
      of that QP number and source; anything else changes nothing. */
  ghost predicate Rule(m: map<string, Flow>, t: Traced, m': map<string, Flow>)
  {
    var e := t.e;
    var src := if Unset(e.srcGid) && t.local != "" then t.local else e.srcGid;
    if t.valid && e.eventType == 2 && e.qpState == 3 && !Unset(src) && e.dstQpn != 0 && !Unset(e.dstGid) then
      m' == m[Keys.FlowKey(src, e.srcQpn, e.dstGid, e.dstQpn) :=
                Flow(FlowId(src, e.srcQpn, e.dstGid, e.dstQpn), t.ip)]
    else if t.valid && e.eventType == 3 then
      || (m' == m && forall k :: k in m ==> !(m[k].id.srcQpn == e.srcQpn && m[k].id.src == src))
      || exists k :: k in m && m[k].id.srcQpn == e.srcQpn && m[k].id.src == src && m' == m - {k}
    else m' == m
  }

  lemma StepIsRule(m: map<string, Flow>, t: Traced, m': map<string, Flow>)
    requires LookupOk(t) && Step(m, t, m')
    ensures Rule(m, t, m')
  {
  }

  lemma ZeroGid()
    ensures |ZERO_GID| == 32 && forall c :: c in ZERO_GID ==> c == '0'
  {
  }

  lemma StepKeepsKeys(m: map<string, Flow>, t: Traced, m': map<string, Flow>)
    requires KeysOk(m) && LookupOk(t) && Step(m, t, m')
    ensures KeysOk(m')
  {
  }

  ghost predicate NoDuplicates(s: seq<string>)
  {
    forall i, j :: 0 <= i < j < |s| ==> s[i] != s[j]
  }

  /** The target list is the active flows in some order, each exactly once. */
  ghost predicate Mirrors(m: map<string, Flow>, order: seq<string>, targets: seq<PingTarget>)
  {
    && NoDuplicates(order) && |order| == |targets|
    && (forall k :: k in order <==> k in m)
    && (forall i :: 0 <= i < |order| ==> Probes(targets[i], m[order[i]]))
  }

  class Monitor {
    var activeFlows: map<string, Flow>
    /** The prober's list, as UpdateServiceFlowTargets last set it. */
    var proberTargets: seq<PingTarget>
    ghost var order: seq<string>

    ghost predicate Valid()
      reads this
    {
      Mirrors(activeFlows, order, proberTargets) && KeysOk(activeFlows)
    }

    constructor ()
      ensures Valid() && activeFlows == map[] && proberTargets == []
    {
      activeFlows, proberTargets, order := map[], [], [];
    }

    /** GetServiceTracingTargets: one target per flow, in whatever order the map is read. */
    method GetServiceTracingTargets() returns (targets: seq<PingTarget>, ghost keys: seq<string>)
      ensures Mirrors(activeFlows, keys, targets)
    {
      targets, keys := [], [];
      var rest := activeFlows.Keys;
      while rest != {}
        invariant rest <= activeFlows.Keys && NoDuplicates(keys) && |keys| == |targets|
        invariant forall k :: k in keys <==> k in activeFlows && k !in rest
        invariant forall i :: 0 <= i < |keys| ==> keys[i] in activeFlows && Probes(targets[i], activeFlows[keys[i]])
        decreases rest
      {
        var k :| k in rest;
        targets := targets + [TargetOf(activeFlows[k])];
        keys := keys + [k];
        rest := rest - {k};
      }
    }

    method NotifyProberUpdate()
      requires KeysOk(activeFlows)
      modifies `proberTargets, `order
      ensures Valid()
    {
      proberTargets, order := GetServiceTracingTargets();
    }

    /** handleEbpfEvent: the map takes one step, and afterwards the prober's list mirrors it. A DESTROY whose
        source stays unresolved removes nothing. */
    method HandleEvent(t: Traced)
      requires Valid() && LookupOk(t)
      modifies this
      ensures Valid() && Step(old(activeFlows), t, activeFlows) && Rule(old(activeFlows), t, activeFlows)
      ensures !t.valid || (!Adds(t) && t.e.eventType != 3) ==> proberTargets == old(proberTargets)
      ensures t.e.eventType == 3 && Unset(t.e.srcGid) && t.local == "" ==> activeFlows == old(activeFlows)
    {
      HandleFlow(t);
      StepIsRule(old(activeFlows), t, activeFlows);
    }

    /** The body of handleEbpfEvent. */
    method HandleFlow(t: Traced)
      requires Valid() && LookupOk(t)
      modifies this
      ensures Valid() && Step(old(activeFlows), t, activeFlows)
      ensures !t.valid || (!Adds(t) && t.e.eventType != 3) ==> proberTargets == old(proberTargets)
      ensures t.e.eventType == 3 && Unset(t.e.srcGid) && t.local == "" ==> activeFlows == old(activeFlows)
    {
      if !t.valid {
        return;
      }
      var e, src := t.e, SourceOf(t);
      if e.eventType == 2 {
        if e.qpState != IB_QPS_RTR || (Unset(e.srcGid) && t.local == "") || e.dstQpn == 0 || Unset(e.dstGid) {
          return;
        }
        var flow := Flow(FlowId(src, e.srcQpn, e.dstGid, e.dstQpn), t.ip);
        activeFlows := activeFlows[KeyOf(flow.id) := flow];
        NotifyProberUpdate();
      } else if e.eventType == 3 {
        var removed := RemoveOne(src, e.srcQpn);
        if removed {
          NotifyProberUpdate();
        }
      }
    }

    /** The removal loop of a DESTROY_QP event. */
    method RemoveOne(src: string, qpn: nat) returns (removed: bool)
      modifies `activeFlows
      ensures DestroyOutcome(old(activeFlows), src, qpn, activeFlows)
      ensures !removed ==> activeFlows == old(activeFlows)
    {
      var rest := activeFlows.Keys;
      while rest != {}
        invariant rest <= activeFlows.Keys && activeFlows == old(activeFlows)
        invariant forall k :: k in activeFlows && k !in rest ==> !MatchesSource(activeFlows[k].id, src, qpn)
        decreases rest
      {
        var k :| k in rest;
        if MatchesSource(activeFlows[k].id, src, qpn) {
          activeFlows := activeFlows - {k};
          return true;
        }
        rest := rest - {k};
      }
      removed := false;
    }
  }

  // ---------- histories ----------

  /** The flows in the map. */
  ghost function Ids(m: map<string, Flow>): set<FlowId>
  {
    set k | k in m :: m[k].id
  }

  /** A QP is a number on a device; a live flow is one that its QP established and that QP still exists. */
  datatype Qp = Qp(device: string, qpn: nat)

  datatype LiveFlow = LiveFlow(qp: Qp, id: FlowId)

  function QpOf(t: Traced): Qp
  {
    Qp(t.device, t.e.srcQpn)
  }

  /** The live flows after one more event: destroying a QP ends all its flows, whatever the monitor makes of the
      event. */
  function LiveAfter(live: set<LiveFlow>, t: Traced): set<LiveFlow>
  {
    if Adds(t) then live + {LiveFlow(QpOf(t), IdOf(t.e, t.local))}
    else if t.e.eventType == 3 then set p | p in live && p.qp != QpOf(t)
    else live
  }

  function Front(ts: seq<Traced>): (r: seq<Traced>)
    requires ts != []
    ensures |r| == |ts| - 1 && forall i :: 0 <= i < |r| ==> r[i] == ts[i]
  {
    ts[..|ts| - 1]
  }

  function Last(ts: seq<Traced>): Traced
    requires ts != []
  {
    ts[|ts| - 1]
  }

  function Live(ts: seq<Traced>): set<LiveFlow>
    decreases |ts|
  {
    if ts == [] then {} else LiveAfter(Live(Front(ts)), Last(ts))
  }

  /** The maps the monitor may hold after these events, over all iteration orders. */
  ghost predicate Reaches(ts: seq<Traced>, m: map<string, Flow>)
    decreases |ts|
  {
    if ts == [] then m == map[]
    else exists m0 :: Reaches(Front(ts), m0) && Step(m0, Last(ts), m)
  }

  /** The map holds exactly the live flows, one entry for each. */
  ghost predicate Exact(m: map<string, Flow>, live: set<LiveFlow>)
  {
    && (forall id :: id in Ids(m) ==> exists p :: p in live && p.id == id)
    && (forall p :: p in live ==> p.id in Ids(m))
    && OneOwner(live)
  }

  ghost predicate OneOwner(live: set<LiveFlow>)
  {
    forall p, q :: p in live && q in live && p.id == q.id ==> p == q
  }

  /** The event selects this flow: valid, same QPN, and the source it resolves to is the one stored. */
  predicate Selects(t: Traced, id: FlowId)
  {
    t.valid && id.srcQpn == t.e.srcQpn && id.src == SourceOf(t)
  }

  /** What exactness needs of an event, given the live flows before it. An added flow is not already another QP's.
      A destroyed QP has at most one flow, that flow is stored under the source the event resolves to, and no flow
      of another QP is. */
  ghost predicate Sound(live: set<LiveFlow>, t: Traced)
  {
    && (Adds(t) ==> forall p :: p in live && p.id == IdOf(t.e, t.local) ==> p.qp == QpOf(t))
    && (t.e.eventType == 3 ==>
          && (forall p :: p in live ==> (p.qp == QpOf(t) <==> Selects(t, p.id)))
          && (forall p, q :: p in live && q in live && p.qp == q.qp == QpOf(t) ==> p == q))
  }

  lemma SameKeySameFlow(a: FlowId, b: FlowId)
    requires Keys.IsGidText(a.src) && Keys.IsGidText(b.src) && KeyOf(a) == KeyOf(b)
    ensures a == b
  {
    Keys.FlowKeyInjective(a.src, a.srcQpn, a.dst, a.dstQpn, b.src, b.srcQpn, b.dst, b.dstQpn);
  }

  /** Storing a flow adds that flow and loses none. */
  lemma EstablishIds(m: map<string, Flow>, f: Flow)
    requires KeysOk(m) && Keys.IsGidText(f.id.src)
    ensures Ids(m[KeyOf(f.id) := f]) == Ids(m) + {f.id}
  {
    var m' := m[KeyOf(f.id) := f];
    forall id | id in Ids(m)
      ensures id in Ids(m')
    {
      var k :| k in m && m[k].id == id;
      if k == KeyOf(f.id) {
        SameKeySameFlow(id, f.id);
      }
      assert m'[k].id == id;
    }
    assert m'[KeyOf(f.id)].id == f.id;
  }

  /** Deleting an entry loses exactly its flow. */
  lemma RemovedIds(m: map<string, Flow>, k: string)
    requires KeysOk(m) && k in m
    ensures Ids(m - {k}) == Ids(m) - {m[k].id}
  {
    var m' := m - {k};
    forall id | id in Ids(m) && id != m[k].id
      ensures id in Ids(m')
    {
      var k' :| k' in m && m[k'].id == id;
      assert m'[k'].id == id;
    }
    forall id | id in Ids(m')
      ensures id in Ids(m) && id != m[k].id
    {
      var k' :| k' in m' && m'[k'].id == id;
      assert m[k'].id == id && k' == KeyOf(id);
    }
  }

  /** A DESTROY leaves exactly the flows of other sources if and only if its source had at most one flow. */
  lemma DestroyExactIff(m: map<string, Flow>, src: string, qpn: nat, m': map<string, Flow>)
    requires KeysOk(m) && DestroyOutcome(m, src, qpn, m')
    ensures Ids(m') == (set id | id in Ids(m) && !MatchesSource(id, src, qpn)) <==> AtMostOne(Ids(m), src, qpn)
  {
    var rest := set id | id in Ids(m) && !MatchesSource(id, src, qpn);
    if m' == m && forall k :: k in m ==> !MatchesSource(m[k].id, src, qpn) {
      assert Ids(m) == rest;
    } else {
      var k :| k in m && MatchesSource(m[k].id, src, qpn) && m' == m - {k};
      RemovedIds(m, k);
      if Ids(m') == rest {
        forall a | a in Ids(m) && MatchesSource(a, src, qpn)
          ensures a == m[k].id
        {
          assert a !in rest;
        }
      }
    }
  }

  /** At most one of the flows matches the source. */
  ghost predicate AtMostOne(ids: set<FlowId>, src: string, qpn: nat)
  {
    forall a, b :: a in ids && b in ids && MatchesSource(a, src, qpn) && MatchesSource(b, src, qpn) ==> a == b
  }

  // ---------- one event ----------

  lemma AddExactIff(m: map<string, Flow>, live: set<LiveFlow>, t: Traced, m': map<string, Flow>)
    requires KeysOk(m) && LookupOk(t) && Exact(m, live) && Adds(t) && Step(m, t, m')
    ensures Exact(m', LiveAfter(live, t)) <==> Sound(live, t)
  {
    var id, live' := IdOf(t.e, t.local), LiveAfter(live, t);
    var own := LiveFlow(QpOf(t), id);
    EstablishIds(m, Flow(id, t.ip));
    assert own in live' && own.id == id;
    if OneOwner(live') {
      forall p | p in live && p.id == id
        ensures p.qp == QpOf(t)
      {
        assert p in live';
      }
    }
    if Sound(live, t) {
      forall id' | id' in Ids(m')
        ensures exists p :: p in live' && p.id == id'
      {
        if id' != id {
          var p :| p in live && p.id == id';
          assert p in live';
        }
      }
    }
  }

  /** Which entry a DESTROY removed, if any. */
  lemma Removal(m: map<string, Flow>, t: Traced, m': map<string, Flow>)
    returns (gone: set<FlowId>)
    requires KeysOk(m) && t.e.eventType == 3 && Step(m, t, m')
    ensures Ids(m') == Ids(m) - gone && gone <= Ids(m)
    ensures forall a :: a in gone ==> Selects(t, a)
    ensures forall a, b :: a in gone && b in gone ==> a == b
    ensures gone == {} ==> forall a :: a in Ids(m) ==> !Selects(t, a)
  {
    gone := {};
    if t.valid && !(m' == m && forall k :: k in m ==> !MatchesSource(m[k].id, SourceOf(t), t.e.srcQpn)) {
      var k :| k in m && MatchesSource(m[k].id, SourceOf(t), t.e.srcQpn) && m' == m - {k};
      RemovedIds(m, k);
      gone := {m[k].id};
      assert m[k].id in Ids(m);
    }
  }

  /** If the event is sound the map stays exact, whichever matching entry the iteration meets first. */
  lemma SoundDestroyIsExact(m: map<string, Flow>, live: set<LiveFlow>, t: Traced, m': map<string, Flow>)
    requires KeysOk(m) && Exact(m, live) && t.e.eventType == 3 && Step(m, t, m') && Sound(live, t)
    ensures Exact(m', LiveAfter(live, t))
  {
    var gone := Removal(m, t, m');
    var live' := LiveAfter(live, t);
    forall id | id in Ids(m')
      ensures exists p :: p in live' && p.id == id
    {
      var p :| p in live && p.id == id;
      assert p in live';
    }
    forall p | p in live'
      ensures p.id in Ids(m')
    {
      assert p.id in Ids(m) && !Selects(t, p.id);
    }
  }

  /** Some outcome of any event. */
  lemma SomeOutcome(m: map<string, Flow>, t: Traced) returns (m': map<string, Flow>)
    ensures Step(m, t, m')
  {
    if Adds(t) {
      m' := m[KeyOf(IdOf(t.e, t.local)) := Flow(IdOf(t.e, t.local), t.ip)];
    } else if t.valid && t.e.eventType == 3 && exists k :: k in m && MatchesSource(m[k].id, SourceOf(t), t.e.srcQpn) {
      var k :| k in m && MatchesSource(m[k].id, SourceOf(t), t.e.srcQpn);
      m' := m - {k};
    } else {
      m' := m;
    }
  }

  /** A flow that stays in the map although its QP is gone. */
  lemma StaleIsNotExact(m': map<string, Flow>, live: set<LiveFlow>, t: Traced, p: LiveFlow)
    requires OneOwner(live) && t.e.eventType == 3 && p in live && p.qp == QpOf(t) && p.id in Ids(m')
    ensures !Exact(m', LiveAfter(live, t))
  {
  }

  /** If the event is not sound, some iteration order loses exactness. */
  lemma UnsoundDestroyFails(m: map<string, Flow>, live: set<LiveFlow>, t: Traced) returns (m': map<string, Flow>)
    requires KeysOk(m) && Exact(m, live) && t.e.eventType == 3 && !Sound(live, t)
    ensures Step(m, t, m') && !Exact(m', LiveAfter(live, t))
  {
    if p :| p in live && Selects(t, p.id) && p.qp != QpOf(t) {
      var k :| k in m && m[k].id == p.id;
      m' := m - {k};
      assert MatchesSource(m[k].id, SourceOf(t), t.e.srcQpn);
      RemovedIds(m, k);
      assert p in LiveAfter(live, t) && p.id !in Ids(m');
    } else {
      m' := SomeOutcome(m, t);
      var gone := Removal(m, t, m');
      if p :| p in live && p.qp == QpOf(t) && p.id !in gone {
        StaleIsNotExact(m', live, t, p);
      } else {
        OnlyFlowGone(live, t, gone);
      }
    }
  }

  lemma OnlyFlowGone(live: set<LiveFlow>, t: Traced, gone: set<FlowId>)
    requires OneOwner(live) && t.e.eventType == 3
    requires forall p :: p in live && Selects(t, p.id) ==> p.qp == QpOf(t)
    requires forall p :: p in live && p.qp == QpOf(t) ==> p.id in gone
    requires forall a :: a in gone ==> Selects(t, a)
    requires forall a, b :: a in gone && b in gone ==> a == b
    ensures Sound(live, t)
  {
  }

  // ---------- whole histories ----------

  /** Whatever the iteration orders, the map is exact after these events. */
  ghost predicate ExactAfter(ts: seq<Traced>)
  {
    forall m :: Reaches(ts, m) ==> Exact(m, Live(ts))
  }

  /** It is exact after every event of the history. */
  ghost predicate ExactThroughout(ts: seq<Traced>)
    decreases |ts|
  {
    ExactAfter(ts) && (ts != [] ==> ExactThroughout(Front(ts)))
  }

  /** Every event is sound for the flows live before it. */
  ghost predicate SoundThroughout(ts: seq<Traced>)
    decreases |ts|
  {
    ts != [] ==> SoundThroughout(Front(ts)) && Sound(Live(Front(ts)), Last(ts))
  }

  ghost predicate LookupsOk(ts: seq<Traced>)
  {
    forall i :: 0 <= i < |ts| ==> LookupOk(ts[i])
  }

  lemma {:induction false} ReachedKeys(ts: seq<Traced>, m: map<string, Flow>)
    requires LookupsOk(ts) && Reaches(ts, m)
    ensures KeysOk(m)
    decreases |ts|
  {
    if ts != [] {
      var before, t := Front(ts), Last(ts);
      var m0 :| Reaches(before, m0) && Step(m0, t, m);
      ReachedKeys(before, m0);
      StepKeepsKeys(m0, t, m);
    }
  }

  lemma {:induction false} SomeMap(ts: seq<Traced>) returns (m: map<string, Flow>)
    ensures Reaches(ts, m)
    decreases |ts|
  {
    if ts == [] {
      m := map[];
    } else {
      var m0 := SomeMap(Front(ts));
      m := SomeOutcome(m0, Last(ts));
    }
  }

  /** A sound event after an exact history leaves it exact. */
  lemma SoundLast(before: seq<Traced>, t: Traced, m: map<string, Flow>)
    requires LookupsOk(before) && LookupOk(t) && ExactAfter(before) && Sound(Live(before), t)
    requires exists m0 :: Reaches(before, m0) && Step(m0, t, m)
    ensures Exact(m, LiveAfter(Live(before), t))
  {
    var m0 :| Reaches(before, m0) && Step(m0, t, m);
    ReachedKeys(before, m0);
    if Adds(t) {
      AddExactIff(m0, Live(before), t, m);
    } else if t.e.eventType == 3 {
      SoundDestroyIsExact(m0, Live(before), t, m);
    }
  }

  /** An event that is not sound makes some reachable map wrong. */
  lemma UnsoundLast(before: seq<Traced>, t: Traced) returns (m0: map<string, Flow>, m: map<string, Flow>)
    requires LookupsOk(before) && LookupOk(t) && ExactAfter(before) && !Sound(Live(before), t)
    ensures Reaches(before, m0) && Step(m0, t, m) && !Exact(m, LiveAfter(Live(before), t))
  {
    m0 := SomeMap(before);
    ReachedKeys(before, m0);
    if t.e.eventType == 3 {
      m := UnsoundDestroyFails(m0, Live(before), t);
    } else {
      m := SomeOutcome(m0, t);
      AddExactIff(m0, Live(before), t, m);
    }
  }

  /** The map is exactly the flows established and not yet destroyed, after every event and for every iteration order,
      if and only if every event is sound: no added flow is another live QP's, and each destroyed QP has at most one
      flow, stored under the very source its DESTROY resolves to, under which no other QP has one. */
  lemma {:induction false} MapIsLiveFlows(ts: seq<Traced>)
    requires LookupsOk(ts)
    ensures ExactThroughout(ts) <==> SoundThroughout(ts)
    decreases |ts|
  {
    if ts != [] {
      var before, t := Front(ts), Last(ts);
      MapIsLiveFlows(before);
      if SoundThroughout(before) {
        if Sound(Live(before), t) {
          forall m | Reaches(ts, m)
            ensures Exact(m, Live(ts))
          {
            SoundLast(before, t, m);
          }
        } else {
          var m0, m := UnsoundLast(before, t);
          assert Reaches(ts, m);
        }
      }
    }
  }

  // ---------- what goes wrong ----------

  /** After two events, the second step starts from what the first one left. */
  lemma ReachesTwo(a: Traced, b: Traced, m: map<string, Flow>) returns (m0: map<string, Flow>)
    requires Reaches([a, b], m)
    ensures Step(map[], a, m0) && Step(m0, b, m)
  {
    assert Front([a, b]) == [a] && Front([a]) == [];
    m0 :| Reaches(Front([a, b]), m0) && Step(m0, Last([a, b]), m);
    var none :| Reaches(Front([a]), none) && Step(none, Last([a]), m0);
    assert none == map[];
  }

  /** A QP that connected twice, to two destinations or under two sources, leaves a stale flow behind when it is
      destroyed, whichever entry the iteration meets first. */
  lemma ReconnectLeavesStaleFlow(a: Traced, b: Traced, d: Traced, m: map<string, Flow>)
    requires LookupOk(a) && LookupOk(b) && LookupOk(d) && Adds(a) && Adds(b) && d.e.eventType == 3
    requires QpOf(a) == QpOf(b) == QpOf(d) && IdOf(a.e, a.local) != IdOf(b.e, b.local)
    requires Reaches([a, b, d], m)
    ensures m != map[] && Live([a, b, d]) == {} && !Exact(m, Live([a, b, d]))
  {
    assert Front([a, b, d]) == [a, b];
    var m2 :| Reaches(Front([a, b, d]), m2) && Step(m2, Last([a, b, d]), m);
    var m1 := ReachesTwo(a, b, m2);
    var k := OneEntryLeft(IdOf(a.e, a.local), IdOf(b.e, b.local), m2, d, m);
    assert m[k].id in Ids(m);
    NoneLive(a, b, d);
  }

  lemma NoneLive(a: Traced, b: Traced, d: Traced)
    requires Adds(a) && Adds(b) && d.e.eventType == 3 && QpOf(a) == QpOf(b) == QpOf(d)
    ensures Live([a, b, d]) == {}
  {
    assert Front([a, b, d]) == [a, b] && Front([a, b]) == [a] && Front([a]) == [];
    assert Live([a]) == {LiveFlow(QpOf(a), IdOf(a.e, a.local))};
    assert Live([a, b]) == Live([a]) + {LiveFlow(QpOf(b), IdOf(b.e, b.local))};
  }

  /** Of two entries a DESTROY leaves at least one. */
  lemma OneEntryLeft(i: FlowId, j: FlowId, m: map<string, Flow>, d: Traced, m': map<string, Flow>) returns (k: string)
    requires i != j && Keys.IsGidText(i.src) && Keys.IsGidText(j.src)
    requires KeyOf(i) in m && KeyOf(j) in m && d.e.eventType == 3 && Step(m, d, m')
    ensures k in m'
  {
    if KeyOf(i) == KeyOf(j) {
      SameKeySameFlow(i, j);
    }
    k := if KeyOf(i) in m' then KeyOf(i) else KeyOf(j);
  }

  /** A QP whose GID was not set when it connected is stored under the text of a local RNIC's GID. If its DESTROY
      carries the GID itself, in hexadecimal, the two texts differ and the flow stays for good. */
  lemma OtherSpellingLeavesStaleFlow(add: Traced, destroy: Traced)
    requires LookupOk(add) && Adds(add) && Unset(add.e.srcGid)
    requires destroy.e.eventType == 3 && !Unset(destroy.e.srcGid) && destroy.e.srcGid != add.local
    requires QpOf(destroy) == QpOf(add)
    ensures !Sound(Live([add]), destroy)
    ensures forall m, m' :: Reaches([add], m) && Step(m, destroy, m') ==> m' == m && m != map[]
  {
    var own := LiveFlow(QpOf(add), IdOf(add.e, add.local));
    assert Front([add]) == [];
    forall m: map<string, Flow>, m': map<string, Flow> | Reaches([add], m) && Step(m, destroy, m')
      ensures m' == m && m != map[]
    {
      var m0 :| Reaches(Front([add]), m0) && Step(m0, Last([add]), m);
      assert m0 == map[] && m[KeyOf(own.id)].id == own.id;
    }
    assert Live([add]) == {own} && own.id.src == add.local;
    assert own in Live([add]) && !Selects(destroy, own.id);
  }

  /** Sources are never stored unresolved, so after any history a DESTROY whose source stays unresolved removes
      nothing. */
  lemma UnresolvedDestroyRemovesNothing(ts: seq<Traced>, m: map<string, Flow>, t: Traced, m': map<string, Flow>)
    requires LookupsOk(ts) && Reaches(ts, m)
    requires t.e.eventType == 3 && Unset(t.e.srcGid) && t.local == "" && Step(m, t, m')
    ensures m' == m
  {
    ReachedKeys(ts, m);
  }
}

/** The prober's session table: the session map, its sequence-number index and the session objects,
    with the atomic map operations that addSession, removeSession, cleanup and Close are made of. */
module Sessions {
  import opened Collections
  import Keys

  /** sessionTimeout, five minutes in nanoseconds. */
  const SESSION_TIMEOUT: int := 300_000_000_000

  /** The fields of an ACK packet the prober reads. */
  datatype Ack = Ack(num: nat, t1: int, t3: int, t4: int, ackType: nat)

  /** ackEvent: an ACK with the NIC time at which it was received. */
  datatype Event = Event(pkt: Ack, receivedAt: int)

  /** The fields of a PingSession that never change. */
  datatype Ident = Ident(num: nat, src: string, tgt: string, flow: nat, key: string, created: int)

  /** A PingSession object: its two one-slot channels, whether they are closed, how often
      closeOnce.Do was called and how often the channels were really closed. */
  datatype Session = Session(id: Ident, ack1: Option<Event>, ack2: Option<Event>,
                             closed: bool, closeCalls: nat, closes: nat)

  /** `objs[i]` is the session object of sequence number i + 1; `sessions` and `index` are the two
      concurrent maps. A session is live while `sessions` points to it. */
  datatype Table = Table(sessions: map<string, nat>, index: map<nat, string>, objs: seq<Session>)

  predicate OwnKey(objs: seq<Session>, i: nat)
    requires i < |objs|
  {
    objs[i].id.key == Keys.SessionKey(objs[i].id.src, objs[i].id.tgt, i + 1)
  }

  /** Session objects are numbered in order and each carries the key made of its own fields. */
  ghost predicate WellNumbered(objs: seq<Session>)
  {
    && (forall i :: 0 <= i < |objs| ==> objs[i].id.num == i + 1)
    && (forall i {:trigger OwnKey(objs, i)} :: 0 <= i < |objs| ==> OwnKey(objs, i))
  }

  lemma WellNumberedStable(objs: seq<Session>, objs': seq<Session>)
    requires WellNumbered(objs) && |objs'| == |objs|
    requires forall i :: 0 <= i < |objs| ==> objs'[i].id == objs[i].id
    ensures WellNumbered(objs')
  {
    forall i | 0 <= i < |objs'| ensures OwnKey(objs', i) {
      assert OwnKey(objs, i);
    }
  }

  /** What holds at every interleaving point: the map and the index only ever name a session by
      that session's own key. */
  ghost predicate TableInv(t: Table)
  {
    && WellNumbered(t.objs)
    && (forall k :: k in t.sessions ==> t.sessions[k] < |t.objs| && t.objs[t.sessions[k]].id.key == k)
    && (forall n :: n in t.index ==> 1 <= n <= |t.objs| && t.index[n] == t.objs[n - 1].id.key)
  }

  ghost predicate Live(t: Table, i: int)
  {
    0 <= i < |t.objs| && t.objs[i].id.key in t.sessions
  }

  /** No two session objects share a key, so no map write can hit another session's entry. */
  lemma KeysUnique(t: Table, i: nat, j: nat)
    requires WellNumbered(t.objs) && i < |t.objs| && j < |t.objs| && i != j
    ensures t.objs[i].id.key != t.objs[j].id.key
  {
    assert OwnKey(t.objs, i) && OwnKey(t.objs, j);
    var a, b := t.objs[i].id, t.objs[j].id;
    Keys.SessionKeysDiffer(a.src, a.tgt, i + 1, b.src, b.tgt, j + 1);
  }

  lemma LiveIsOwnEntry(t: Table, i: nat)
    requires TableInv(t) && Live(t, i)
    ensures t.sessions[t.objs[i].id.key] == i
  {
    var j := t.sessions[t.objs[i].id.key];
    if i != j {
      KeysUnique(t, i, j);
    }
  }

  // ---------- the atomic operations ----------

  function NewSession(num: nat, src: string, tgt: string, flow: nat, now: int): Session
  {
    Session(Ident(num, src, tgt, flow, Keys.SessionKey(src, tgt, num), now), None, None, false, 0, 0)
  }

  function StoreSession(t: Table, i: nat): Table
    requires i < |t.objs|
  {
    t.(sessions := t.sessions[t.objs[i].id.key := i])
  }

  function StoreIndex(t: Table, i: nat): Table
    requires i < |t.objs|
  {
    t.(index := t.index[t.objs[i].id.num := t.objs[i].id.key])
  }

  function Unlink(t: Table, i: nat): Table
    requires i < |t.objs|
  {
    t.(sessions := t.sessions - {t.objs[i].id.key})
  }

  function DropIndex(t: Table, i: nat): Table
    requires i < |t.objs|
  {
    t.(index := t.index - {t.objs[i].id.num})
  }

  /** closeOnce.Do(close): the channels are closed by the first call only. */
  function Closed(o: Session): Session
  {
    o.(closed := true, closeCalls := o.closeCalls + 1, closes := if o.closed then o.closes else o.closes + 1)
  }

  function CloseOnce(t: Table, i: nat): Table
    requires i < |t.objs|
  {
    t.(objs := t.objs[i := Closed(t.objs[i])])
  }

  /** The non-blocking send of an ACK event: nothing is sent when the session is closed, the slot is
      taken, the completion was not successful or the ACK type is unknown. */
  function Delivered(o: Session, ev: Event, statusOk: bool): Session
  {
    if !statusOk || o.closed then o
    else if ev.pkt.ackType == 1 then (if o.ack1.None? then o.(ack1 := Some(ev)) else o)
    else if ev.pkt.ackType == 2 then (if o.ack2.None? then o.(ack2 := Some(ev)) else o)
    else o
  }

  /** What a session is right after it was made: its own number, ends, label and time, and two empty, open channels. */
  ghost predicate Fresh(o: Session, num: nat, src: string, tgt: string, flow: nat, now: int)
  {
    && o.id.num == num && o.id.src == src && o.id.tgt == tgt && o.id.flow == flow && o.id.created == now
    && o.id.key == Keys.SessionKey(src, tgt, num)
    && o.ack1.None? && o.ack2.None? && !o.closed && o.closeCalls == 0 && o.closes == 0
  }

  /** What handing an ACK to a session may do to it: an empty slot of the ACK's type takes the event if the session is
      open and the completion was successful; a full slot keeps its event, and nothing else changes. */
  ghost predicate HandedTo(o: Session, o': Session, ev: Event, statusOk: bool)
  {
    && o'.id == o.id && o'.closed == o.closed && o'.closeCalls == o.closeCalls && o'.closes == o.closes
    && (statusOk && !o.closed && ev.pkt.ackType == 1 && o.ack1.None? ==> o'.ack1 == Some(ev))
    && (statusOk && !o.closed && ev.pkt.ackType == 2 && o.ack2.None? ==> o'.ack2 == Some(ev))
    && (o.ack1.Some? || ev.pkt.ackType != 1 ==> o'.ack1 == o.ack1)
    && (o.ack2.Some? || ev.pkt.ackType != 2 ==> o'.ack2 == o.ack2)
    && (!statusOk || o.closed ==> o' == o)
  }

  /** What closing a session does to it: the channels are closed, by the first call only, and keep what they hold. */
  ghost predicate ClosedFrom(o: Session, o': Session)
  {
    && o'.id == o.id && o'.ack1 == o.ack1 && o'.ack2 == o.ack2
    && o'.closed && o'.closeCalls == o.closeCalls + 1
    && (o.closed ==> o'.closes == o.closes) && (!o.closed ==> o'.closes == o.closes + 1)
  }

  lemma NewIsFresh(num: nat, src: string, tgt: string, flow: nat, now: int)
    ensures Fresh(NewSession(num, src, tgt, flow, now), num, src, tgt, flow, now)
  {
  }

  lemma DeliveredIsHanded(o: Session, ev: Event, statusOk: bool)
    ensures HandedTo(o, Delivered(o, ev, statusOk), ev, statusOk)
  {
  }

  lemma ClosedCloses(o: Session)
    ensures ClosedFrom(o, Closed(o))
  {
  }

  lemma AppendKeepsNumbers(objs: seq<Session>, src: string, tgt: string, flow: nat, now: int)
    requires WellNumbered(objs)
    ensures WellNumbered(objs + [NewSession(|objs| + 1, src, tgt, flow, now)])
  {
    var objs' := objs + [NewSession(|objs| + 1, src, tgt, flow, now)];
    forall i | 0 <= i < |objs'| ensures OwnKey(objs', i) {
      if i < |objs| {
        assert OwnKey(objs, i);
      }
    }
  }

  /** The table with the next session in it: a new object, then the two map writes of addSession. */
  function Added(t: Table, src: string, tgt: string, flow: nat, now: int): Table
  {
    var i := |t.objs|;
    var t' := t.(objs := t.objs + [NewSession(i + 1, src, tgt, flow, now)]);
    StoreIndex(StoreSession(t', i), i)
  }

  lemma AddedInv(t: Table, src: string, tgt: string, flow: nat, now: int)
    requires TableInv(t)
    ensures TableInv(Added(t, src, tgt, flow, now)) && Live(Added(t, src, tgt, flow, now), |t.objs|)
  {
    AppendKeepsNumbers(t.objs, src, tgt, flow, now);
  }

  lemma AddedKeepsOne(t: Table, src: string, tgt: string, flow: nat, now: int, j: nat)
    requires TableInv(t) && Live(t, j)
    ensures var u := Added(t, src, tgt, flow, now); Live(u, j) && u.sessions[u.objs[j].id.key] == j
  {
    AddedInv(t, src, tgt, flow, now);
    LiveIsOwnEntry(t, j);
    KeysUnique(Added(t, src, tgt, flow, now), |t.objs|, j);
  }

  /** Adding the next session keeps the table and every live session in it. */
  lemma AddedKeepsInv(t: Table, src: string, tgt: string, flow: nat, now: int)
    requires TableInv(t)
    ensures var u := Added(t, src, tgt, flow, now);
      && TableInv(u) && Live(u, |t.objs|)
      && forall j :: Live(t, j) ==> Live(u, j) && u.sessions[u.objs[j].id.key] == j
  {
    var u := Added(t, src, tgt, flow, now);
    AddedInv(t, src, tgt, flow, now);
    forall j | Live(t, j)
      ensures Live(u, j) && u.sessions[u.objs[j].id.key] == j
    {
      AddedKeepsOne(t, src, tgt, flow, now, j);
    }
  }

  lemma DeliveredKeepsInv(t: Table, i: nat, ev: Event, statusOk: bool)
    requires TableInv(t) && i < |t.objs|
    ensures TableInv(t.(objs := t.objs[i := Delivered(t.objs[i], ev, statusOk)]))
  {
    var objs' := t.objs[i := Delivered(t.objs[i], ev, statusOk)];
    assert forall j :: 0 <= j < |t.objs| ==> objs'[j].id == t.objs[j].id;
    WellNumberedStable(t.objs, objs');
  }

  // ---------- lookups, as relations, because map iteration has no fixed order ----------

  ghost predicate ScanByLabel(t: Table, flow: nat, r: Option<nat>)
    requires TableInv(t)
  {
    match r
    case Some(i) => Live(t, i) && t.objs[i].id.flow == flow
    case None => forall i :: Live(t, i) ==> t.objs[i].id.flow != flow
  }

  predicate Matches(o: Session, num: nat, gid: string)
  {
    o.id.num == num && o.id.tgt == gid
  }

  /** The plain scan of findSessionByPacketInfo. */
  ghost predicate ScanByNumber(t: Table, num: nat, gid: string, r: Option<nat>)
    requires TableInv(t)
  {
    match r
    case Some(i) => Live(t, i) && Matches(t.objs[i], num, gid)
    case None => forall i :: Live(t, i) ==> !Matches(t.objs[i], num, gid)
  }

  /** findSessionByPacketInfo: index first, then the scan. */
  ghost predicate FindOutcome(t: Table, num: nat, gid: string, r: Option<nat>)
    requires TableInv(t)
  {
    if num in t.index && t.index[num] in t.sessions && t.objs[t.sessions[t.index[num]]].id.tgt == gid
    then r == Some(t.sessions[t.index[num]])
    else ScanByNumber(t, num, gid, r)
  }

  /** The live session with that number and target, if there is one. */
  ghost function LiveMatch(t: Table, num: nat, gid: string): Option<nat>
  {
    if num > 0 && Live(t, num - 1) && t.objs[num - 1].id.tgt == gid then Some(num - 1) else None
  }

  /** The indexed lookup and the plain scan give the same single answer at every point. */
  lemma LookupRefinesScan(t: Table, num: nat, gid: string, r: Option<nat>)
    requires TableInv(t)
    ensures FindOutcome(t, num, gid, r) <==> r == LiveMatch(t, num, gid)
    ensures ScanByNumber(t, num, gid, r) <==> r == LiveMatch(t, num, gid)
  {
    assert forall i :: Live(t, i) && Matches(t.objs[i], num, gid) ==> i == num - 1;
    if num > 0 && Live(t, num - 1) {
      assert Matches(t.objs[num - 1], num, gid) <==> t.objs[num - 1].id.tgt == gid;
      LiveIsOwnEntry(t, num - 1);
    }
  }

  /** Where an ACK goes: label first, then sequence number and source GID. */
  ghost predicate RouteOutcome(t: Table, flow: nat, num: nat, gid: string, r: Option<nat>)
    requires TableInv(t)
  {
    (ScanByLabel(t, flow, r) && r.Some?) || (ScanByLabel(t, flow, None) && FindOutcome(t, num, gid, r))
  }

  /** No live session other than the one numbered `num` has that flow label. */
  ghost predicate LabelOwned(t: Table, flow: nat, num: nat)
  {
    forall i :: Live(t, i) && t.objs[i].id.flow == flow ==> t.objs[i].id.num == num
  }

  /** An ACK can reach a session of another probe exactly when some other live session has the flow
      label it arrived with. */
  lemma MisrouteIff(t: Table, flow: nat, num: nat, gid: string)
    requires TableInv(t)
    ensures (exists r: Option<nat> :: RouteOutcome(t, flow, num, gid, r) && r.Some? && t.objs[r.value].id.num != num)
            <==> !LabelOwned(t, flow, num)
  {
    forall r: Option<nat> | RouteOutcome(t, flow, num, gid, r) && r.Some? && t.objs[r.value].id.num != num
      ensures !LabelOwned(t, flow, num)
    {
      LookupRefinesScan(t, num, gid, r);
    }
    if !LabelOwned(t, flow, num) {
      var i :| Live(t, i) && t.objs[i].id.flow == flow && t.objs[i].id.num != num;
      assert RouteOutcome(t, flow, num, gid, Some(i));
    }
  }

  /** Under unambiguous labels the outcome is fixed: the ACK reaches its own session exactly when that is live and has
      the label or the source GID seen, and is not delivered otherwise. */
  lemma RouteExact(t: Table, flow: nat, num: nat, gid: string, r: Option<nat>)
    requires TableInv(t) && LabelOwned(t, flow, num)
    ensures RouteOutcome(t, flow, num, gid, r) <==>
            r == if num > 0 && Live(t, num - 1) && (t.objs[num - 1].id.flow == flow || t.objs[num - 1].id.tgt == gid)
                 then Some(num - 1) else None
  {
    LookupRefinesScan(t, num, gid, r);
    assert forall i :: Live(t, i) && t.objs[i].id.flow == flow ==> i == num - 1;
    if num > 0 && Live(t, num - 1) && t.objs[num - 1].id.flow == flow {
      assert ScanByLabel(t, flow, Some(num - 1)) && !ScanByLabel(t, flow, None);
    }
  }

  // ---------- removal of a set of sessions ----------

  ghost function ClosedIn(objs: seq<Session>, gone: set<nat>): seq<Session>
  {
    seq(|objs|, i requires 0 <= i < |objs| => if i in gone then Closed(objs[i]) else objs[i])
  }

  /** The table after the sessions in `gone` were unlinked, dropped from the index and closed. */
  ghost function Removed(t: Table, gone: set<nat>): Table
  {
    Table(t.sessions - (set k | k in t.sessions && t.sessions[k] in gone),
          t.index - (set n | n in t.index && n > 0 && n - 1 in gone),
          ClosedIn(t.objs, gone))
  }

  lemma RemovedKeepsInv(t: Table, gone: set<nat>)
    requires TableInv(t)
    ensures TableInv(Removed(t, gone))
    ensures forall i :: Live(Removed(t, gone), i) <==> Live(t, i) && i !in gone
  {
    var t' := Removed(t, gone);
    WellNumberedStable(t.objs, t'.objs);
    forall i | 0 <= i < |t.objs| ensures Live(t', i) <==> Live(t, i) && i !in gone {
      assert t'.objs[i].id == t.objs[i].id;
      if Live(t, i) {
        LiveIsOwnEntry(t, i);
      }
    }
  }

  lemma RemovedOne(t: Table, i: nat)
    requires i < |t.objs| && t.objs[i].id.num == i + 1
    requires forall k :: k in t.sessions ==> (t.sessions[k] == i <==> k == t.objs[i].id.key)
    ensures Removed(t, {i}) == CloseOnce(DropIndex(Unlink(t, i), i), i)
  {
    assert Removed(t, {i}).sessions == t.sessions - {t.objs[i].id.key};
    assert Removed(t, {i}).index == t.index - {i + 1};
    assert Removed(t, {i}).objs == t.objs[i := Closed(t.objs[i])];
  }

  /** Removing one live session is exactly its three atomic operations. */
  lemma RemovedIsThreeSteps(t: Table, i: nat)
    requires TableInv(t) && Live(t, i)
    ensures Removed(t, {i}) == CloseOnce(DropIndex(Unlink(t, i), i), i)
  {
    LiveIsOwnEntry(t, i);
    RemovedOne(t, i);
  }

  lemma MinusTwice<K, V>(m: map<K, V>, a: set<K>, b: set<K>)
    ensures m - a - b == m - (a + b)
  {
  }

  lemma RemovedTwice(t: Table, a: set<nat>, b: set<nat>)
    requires a !! b
    ensures Removed(Removed(t, a), b) == Removed(t, a + b)
  {
    var m, x := t.sessions, t.index;
    var ka := set k | k in m && m[k] in a;
    var kb := set k | k in m - ka && (m - ka)[k] in b;
    var na := set n | n in x && n > 0 && n - 1 in a;
    var nb := set n | n in x - na && n > 0 && n - 1 in b;
    MinusTwice(m, ka, kb);
    MinusTwice(x, na, nb);
    assert ka + kb == set k | k in m && m[k] in a + b;
    assert na + nb == set n | n in x && n > 0 && n - 1 in a + b;
    assert Removed(Removed(t, a), b).objs == Removed(t, a + b).objs;
  }

  ghost predicate ExpiredLive(t: Table, now: int, i: int)
  {
    Live(t, i) && now - t.objs[i].id.created > SESSION_TIMEOUT
  }

  ghost function ExpiredSet(t: Table, now: int): set<nat>
  {
    set i: nat | i < |t.objs| && ExpiredLive(t, now, i)
  }

  ghost function LiveSet(t: Table): set<nat>
  {
    set i: nat | i < |t.objs| && Live(t, i)
  }
}

/** The session-table code of the prober in its own imperative form, proved against the table
    operations of module Sessions. */
module ProberObject {
  import opened Collections
  import opened Sessions
  import Keys

  class Prober {
    var sessions: map<string, nat>
    var seqNumIndex: map<nat, string>
    var objs: seq<Session>
    var sessionsCreated: nat
    var foundByFlow: nat
    var foundBySeqNum: nat
    var notFound: nat
    var cleanups: nat

    ghost function Tab(): Table
      reads this
    {
      Table(sessions, seqNumIndex, objs)
    }

    ghost predicate Valid()
      reads this
    {
      TableInv(Tab())
    }

    constructor ()
      ensures Valid() && Tab() == Table(map[], map[], [])
      ensures sessionsCreated == foundByFlow == foundBySeqNum == notFound == cleanups == 0
    {
      sessions, seqNumIndex, objs := map[], map[], [];
      sessionsCreated, foundByFlow, foundBySeqNum, notFound, cleanups := 0, 0, 0, 0, 0;
    }

    /** The head of ProbeTarget: take the next sequence number, build the session and add it. */
    method AddSession(src: string, tgt: string, flow: nat, now: int) returns (i: nat)
      requires Valid()
      modifies this
      ensures Valid() && i == |old(objs)| && Live(Tab(), i)
      ensures |objs| == i + 1 && objs[..i] == old(objs) && Fresh(objs[i], i + 1, src, tgt, flow, now)
      ensures sessions == old(sessions)[objs[i].id.key := i]
      ensures seqNumIndex == old(seqNumIndex)[i + 1 := objs[i].id.key]
      ensures LiveMatch(Tab(), i + 1, tgt) == Some(i) && !ScanByLabel(Tab(), flow, None)
      ensures forall later :: later - now <= 300_000_000_000 ==> !ExpiredLive(Tab(), later, i)
      ensures objs == old(objs) + [NewSession(i + 1, src, tgt, flow, now)]
      ensures Tab() == Added(old(Tab()), src, tgt, flow, now)
      ensures forall j :: old(Live(Tab(), j)) ==> Live(Tab(), j) && sessions[objs[j].id.key] == j
      ensures sessionsCreated == old(sessionsCreated) + 1
      ensures unchanged(`foundByFlow, `foundBySeqNum, `notFound, `cleanups)
    {
      ghost var t := Tab();
      i := |objs|;
      objs := objs + [NewSession(i + 1, src, tgt, flow, now)];
      sessions := sessions[objs[i].id.key := i];
      seqNumIndex := seqNumIndex[i + 1 := objs[i].id.key];
      sessionsCreated := sessionsCreated + 1;
      NewIsFresh(i + 1, src, tgt, flow, now);
      assert Tab() == Added(t, src, tgt, flow, now);
      AddedKeepsInv(t, src, tgt, flow, now);
    }

    /** removeSession: LoadAndDelete, drop the index entry, close the channels once. */
    method RemoveSession(key: string)
      requires Valid()
      modifies `sessions, `seqNumIndex, `objs
      ensures Valid()
      ensures key in old(sessions) ==> Tab() == Removed(old(Tab()), {old(sessions)[key]})
      ensures key in old(sessions) ==> OneGone(old(Tab()), Tab(), key)
      ensures key !in old(sessions) ==> Tab() == old(Tab())
    {
      if key in sessions {
        ghost var t := Tab();
        var i := sessions[key];
        sessions := sessions - {key};
        seqNumIndex := seqNumIndex - {objs[i].id.num};
        objs := objs[i := Closed(objs[i])];
        assert Tab() == CloseOnce(DropIndex(Unlink(t, i), i), i);
        RemovedEffect(t, i);
      }
    }

    /** getSessionByFlowLabel: any live session with that label, in whatever order the map is read. */
    method GetSessionByFlowLabel(flow: nat) returns (r: Option<nat>)
      requires Valid()
      ensures ScanByLabel(Tab(), flow, r)
    {
      var rest := sessions.Keys;
      while rest != {}
        invariant rest <= sessions.Keys
        invariant forall i :: Live(Tab(), i) && objs[i].id.key !in rest ==> objs[i].id.flow != flow
        decreases rest
      {
        var k :| k in rest;
        if objs[sessions[k]].id.flow == flow {
          return Some(sessions[k]);
        }
        OnlyEntryOfKey(Tab(), k);
        rest := rest - {k};
      }
      r := None;
    }

    /** findSessionByPacketInfo returns the one live session with that number and target, or none. */
    method FindSessionByPacketInfo(num: nat, gid: string) returns (r: Option<nat>)
      requires Valid()
      ensures r == LiveMatch(Tab(), num, gid)
    {
      if num in seqNumIndex {
        var key := seqNumIndex[num];
        if key in sessions && objs[sessions[key]].id.tgt == gid {
          LookupRefinesScan(Tab(), num, gid, Some(sessions[key]));
          return Some(sessions[key]);
        }
      }
      var rest := sessions.Keys;
      while rest != {}
        invariant rest <= sessions.Keys
        invariant forall i :: Live(Tab(), i) && objs[i].id.key !in rest ==> !Matches(objs[i], num, gid)
        decreases rest
      {
        var k :| k in rest;
        if Matches(objs[sessions[k]], num, gid) {
          LookupRefinesScan(Tab(), num, gid, Some(sessions[k]));
          return Some(sessions[k]);
        }
        OnlyEntryOfKey(Tab(), k);
        rest := rest - {k};
      }
      r := None;
      LookupRefinesScan(Tab(), num, gid, None);
    }

    /** HandleIncomingRDMAPacket: route the ACK, count how it was found, send it to the session's
        channel for its type without blocking. */
    method HandleIncomingRDMAPacket(ev: Event, flow: nat, gid: string, statusOk: bool) returns (r: Option<nat>)
      requires Valid()
      modifies `objs, `foundByFlow, `foundBySeqNum, `notFound
      ensures Valid()
      ensures RouteOutcome(old(Tab()), flow, ev.pkt.num, gid, r)
      ensures r.Some? ==>
                && r.value < |objs| == |old(objs)| && HandedTo(old(objs)[r.value], objs[r.value], ev, statusOk)
                && forall j :: 0 <= j < |objs| && j != r.value ==> objs[j] == old(objs)[j]
      ensures r.None? ==> objs == old(objs)
      ensures foundByFlow + foundBySeqNum + notFound == old(foundByFlow + foundBySeqNum + notFound) + 1
      ensures foundByFlow >= old(foundByFlow) && foundBySeqNum >= old(foundBySeqNum) && notFound >= old(notFound)
      ensures r.None? <==> notFound > old(notFound)
      ensures foundByFlow > old(foundByFlow) <==> !ScanByLabel(old(Tab()), flow, None)
    {
      ghost var t := Tab();
      r := GetSessionByFlowLabel(flow);
      if r.Some? {
        foundByFlow := foundByFlow + 1;
      } else {
        r := FindSessionByPacketInfo(ev.pkt.num, gid);
        LookupRefinesScan(t, ev.pkt.num, gid, r);
        if r.Some? {
          foundBySeqNum := foundBySeqNum + 1;
        } else {
          notFound := notFound + 1;
        }
      }
      if r.Some? {
        DeliveredIsHanded(objs[r.value], ev, statusOk);
        objs := objs[r.value := Delivered(objs[r.value], ev, statusOk)];
        DeliveredKeepsInv(t, r.value, ev, statusOk);
      }
    }

    /** cleanupExpiredSessions: collect the expired sessions, then remove each of them. */
    method CleanupExpiredSessions(now: int)
      requires Valid()
      modifies `sessions, `seqNumIndex, `objs, `cleanups
      ensures Valid()
      ensures Tab() == Removed(old(Tab()), ExpiredSet(old(Tab()), now))
      ensures forall i :: Live(Tab(), i) <==>
                old(Live(Tab(), i)) && now - old(objs)[i].id.created <= 300_000_000_000
      ensures OnlyClosed(old(objs), objs, ExpiredSet(old(Tab()), now))
      ensures cleanups == old(cleanups) + |ExpiredSet(old(Tab()), now)|
    {
      ghost var t := Tab();
      var expired: set<nat> := {};
      var rest := sessions.Keys;
      while rest != {}
        invariant rest <= sessions.Keys && Tab() == t && cleanups == old(cleanups)
        invariant forall i :: i in expired <==> ExpiredLive(t, now, i) && objs[i].id.key !in rest
        decreases rest
      {
        var k :| k in rest;
        OnlyEntryOfKey(t, k);
        if now - objs[sessions[k]].id.created > SESSION_TIMEOUT {
          expired := expired + {sessions[k]};
        }
        rest := rest - {k};
      }
      cleanups := cleanups + |expired|;
      assert expired == ExpiredSet(t, now);
      RemovedKeepsInv(t, expired);
      ClosedInOnly(t.objs, expired);
      RemoveAll(expired);
    }

    method RemoveAll(gone: set<nat>)
      requires Valid()
      requires forall i :: i in gone ==> Live(Tab(), i)
      modifies `sessions, `seqNumIndex, `objs
      ensures Valid() && Tab() == Removed(old(Tab()), gone)
    {
      ghost var t := Tab();
      RemovedNone(t);
      var left := gone;
      while left != {}
        invariant left <= gone
        invariant Valid() && Tab() == Removed(t, gone - left)
        decreases left
      {
        var i :| i in left;
        RemoveOneMore(t, gone, left, i);
        RemoveSession(objs[i].id.key);
        left := left - {i};
      }
      assert gone - left == gone;
    }

    /** Close, its table part: close and delete every live session, then clear the index. */
    method Close()
      requires Valid()
      modifies `sessions, `seqNumIndex, `objs
      ensures Valid()
      ensures sessions == map[] && seqNumIndex == map[]
      ensures OnlyClosed(old(objs), objs, LiveSet(old(Tab())))
    {
      ghost var t := Tab();
      ShutStart(t);
      var rest := sessions.Keys;
      while rest != {}
        invariant rest <= t.sessions.Keys && Tab() == Shut(t, rest)
        decreases rest
      {
        var k :| k in rest;
        ShutStep(t, rest, k);
        ghost var u := Tab();
        objs := objs[sessions[k] := Closed(objs[sessions[k]])];
        sessions := sessions - {k};
        rest := rest - {k};
        assert Tab() == Table(u.sessions - {k}, u.index, u.objs[u.sessions[k] := Closed(u.objs[u.sessions[k]])]);
      }
      seqNumIndex := map[];
      ShutEnd(t);
      ClosedInOnly(t.objs, LiveSet(t));
      assert Tab() == Table(map[], map[], Shut(t, {}).objs);
    }
  }

  /** Exactly the sessions in `gone` were closed; the others are as they were. */
  ghost predicate OnlyClosed(objs: seq<Session>, objs': seq<Session>, gone: set<nat>)
  {
    && |objs'| == |objs|
    && forall i :: 0 <= i < |objs| ==> if i in gone then ClosedFrom(objs[i], objs'[i]) else objs'[i] == objs[i]
  }

  /** The session of that key is gone from both maps and closed; nothing else changed. */
  ghost predicate OneGone(t: Table, t': Table, key: string)
    requires key in t.sessions
  {
    && t'.sessions == t.sessions - {key} && t'.index == t.index - {t.sessions[key] + 1}
    && OnlyClosed(t.objs, t'.objs, {t.sessions[key]})
  }

  lemma RemovedEffect(t: Table, i: nat)
    requires TableInv(t) && Live(t, i)
    ensures var u := CloseOnce(DropIndex(Unlink(t, i), i), i);
      && TableInv(u) && u == Removed(t, {i})
      && t.sessions[t.objs[i].id.key] == i && OneGone(t, u, t.objs[i].id.key)
  {
    LiveIsOwnEntry(t, i);
    RemovedIsThreeSteps(t, i);
    RemovedKeepsInv(t, {i});
    ThreeSteps(t, i);
  }

  lemma ThreeSteps(t: Table, i: nat)
    requires i < |t.objs| && t.objs[i].id.num == i + 1
    requires t.objs[i].id.key in t.sessions && t.sessions[t.objs[i].id.key] == i
    ensures OneGone(t, CloseOnce(DropIndex(Unlink(t, i), i), i), t.objs[i].id.key)
  {
    ClosedCloses(t.objs[i]);
  }

  lemma ClosedInOnly(objs: seq<Session>, gone: set<nat>)
    ensures OnlyClosed(objs, ClosedIn(objs, gone), gone)
  {
    forall i | 0 <= i < |objs|
      ensures ClosedFrom(objs[i], Closed(objs[i]))
    {
      ClosedCloses(objs[i]);
    }
  }

  /** The table while Close runs, with the keys in `rest` still to visit. */
  ghost function Shut(t: Table, rest: set<string>): Table
  {
    Table(t.sessions - (t.sessions.Keys - rest), t.index, ClosedIn(t.objs, Visited(t, rest)))
  }

  ghost function Visited(t: Table, rest: set<string>): set<nat>
  {
    set i: nat | i < |t.objs| && Live(t, i) && t.objs[i].id.key !in rest
  }

  lemma ShutStart(t: Table)
    ensures Shut(t, t.sessions.Keys) == t
  {
    assert Visited(t, t.sessions.Keys) == {};
    assert ClosedIn(t.objs, {}) == t.objs;
    assert t.sessions - (t.sessions.Keys - t.sessions.Keys) == t.sessions;
  }

  lemma ShutStep(t: Table, rest: set<string>, k: string)
    requires TableInv(t) && rest <= t.sessions.Keys && k in rest
    ensures var u := Shut(t, rest);
      && k in u.sessions && u.sessions[k] < |u.objs|
      && Shut(t, rest - {k}) == Table(u.sessions - {k}, u.index,
                                      u.objs[u.sessions[k] := Closed(u.objs[u.sessions[k]])])
  {
    OnlyEntryOfKey(t, k);
    var i := t.sessions[k];
    assert Visited(t, rest - {k}) == Visited(t, rest) + {i};
    ClosedInStep(t.objs, Visited(t, rest), i);
    MinusTwice(t.sessions, t.sessions.Keys - rest, {k});
    assert t.sessions.Keys - (rest - {k}) == t.sessions.Keys - rest + {k};
  }

  lemma ShutEnd(t: Table)
    requires TableInv(t)
    ensures Shut(t, {}).sessions == map[]
    ensures Shut(t, {}).objs == Removed(t, LiveSet(t)).objs && TableInv(Table(map[], map[], Shut(t, {}).objs))
  {
    assert Visited(t, {}) == LiveSet(t);
    WellNumberedStable(t.objs, Shut(t, {}).objs);
  }

  lemma RemoveOneMore(t: Table, gone: set<nat>, left: set<nat>, i: nat)
    requires TableInv(t) && left <= gone && i in left && Live(t, i)
    ensures var u := Removed(t, gone - left);
      && Live(u, i) && u.sessions[u.objs[i].id.key] == i
      && Removed(u, {i}) == Removed(t, gone - (left - {i}))
  {
    StillLive(t, gone - left, i);
    RemovedTwice(t, gone - left, {i});
    assert gone - (left - {i}) == gone - left + {i};
  }

  lemma StillLive(t: Table, gone: set<nat>, i: nat)
    requires TableInv(t) && Live(t, i) && i !in gone
    ensures var u := Removed(t, gone); Live(u, i) && u.sessions[u.objs[i].id.key] == i
  {
    RemovedKeepsInv(t, gone);
    LiveIsOwnEntry(Removed(t, gone), i);
  }

  lemma ClosedInStep(objs: seq<Session>, gone: set<nat>, i: nat)
    requires i < |objs| && i !in gone
    ensures ClosedIn(objs, gone)[i := Closed(objs[i])] == ClosedIn(objs, gone + {i})
    ensures ClosedIn(objs, gone)[i] == objs[i]
  {
  }

  lemma OnlyEntryOfKey(t: Table, k: string)
    requires TableInv(t) && k in t.sessions
    ensures Live(t, t.sessions[k])
    ensures forall i :: Live(t, i) && t.objs[i].id.key == k ==> i == t.sessions[k]
  {
    forall i | Live(t, i) && t.objs[i].id.key == k ensures i == t.sessions[k] {
      LiveIsOwnEntry(t, i);
    }
  }

  lemma RemovedNone(t: Table)
    ensures forall gone :: gone == {} ==> Removed(t, gone) == t
  {
    assert Removed(t, {}).sessions == t.sessions;
    assert Removed(t, {}).index == t.index;
    assert Removed(t, {}).objs == t.objs;
  }
}

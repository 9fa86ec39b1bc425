/** What the session table keeps in every run of the protocol: numbering, keys, index, exclusive
    removal and closing. */
module TableRuns {
  import opened Sessions
  import opened Protocol

  /** The table is consistent and a session that was not yet stored is not in the map. */
  ghost predicate TabInv(s: State)
  {
    && |s.phases| == |s.nets| == |s.table.objs|
    && TableInv(s.table)
    && forall i :: 0 <= i < |s.phases| && s.phases[i].Allocated? ==> !Live(s.table, i)
  }

  /** Changing session objects without changing their identity keeps the table consistent. */
  lemma SameIdents(t: Table, t': Table)
    requires TableInv(t) && t'.sessions == t.sessions && t'.index == t.index && |t'.objs| == |t.objs|
    requires forall i :: 0 <= i < |t.objs| ==> t'.objs[i].id == t.objs[i].id
    ensures TableInv(t')
    ensures forall i :: Live(t', i) <==> Live(t, i)
  {
    WellNumberedStable(t.objs, t'.objs);
  }

  /** Removing entries from the two maps keeps the table consistent. */
  lemma FewerEntries(t: Table, t': Table)
    requires TableInv(t) && t'.objs == t.objs
    requires forall k :: k in t'.sessions ==> k in t.sessions && t'.sessions[k] == t.sessions[k]
    requires forall n :: n in t'.index ==> n in t.index && t'.index[n] == t.index[n]
    ensures TableInv(t')
    ensures forall i :: Live(t', i) ==> Live(t, i)
  {
  }

  lemma StartKeeps(t: Table, src: string, tgt: string, flow: nat, now: int)
    requires TableInv(t)
    ensures var t' := t.(objs := t.objs + [NewSession(|t.objs| + 1, src, tgt, flow, now)]);
      TableInv(t') && forall i :: Live(t', i) <==> Live(t, i)
  {
    var t' := t.(objs := t.objs + [NewSession(|t.objs| + 1, src, tgt, flow, now)]);
    AppendKeepsNumbers(t.objs, src, tgt, flow, now);
    var n := |t.objs|;
    if t'.objs[n].id.key in t.sessions {
      KeysUnique(t', t.sessions[t'.objs[n].id.key], n);
    }
  }

  lemma StoreKeeps(t: Table, i: nat)
    requires TableInv(t) && i < |t.objs|
    ensures TableInv(StoreSession(t, i))
    ensures forall j :: Live(StoreSession(t, i), j) <==> Live(t, j) || j == i
  {
    forall j | 0 <= j < |t.objs| && j != i
      ensures Live(StoreSession(t, i), j) <==> Live(t, j)
    {
      KeysUnique(t, i, j);
    }
  }

  lemma TabCall(c: Config, s: State, i: nat, a: Action)
    requires TabInv(s) && Enabled(s, Call(i, a))
    ensures TabInv(AfterCall(c, s, i, a))
  {
    var s' := AfterCall(c, s, i, a);
    match a {
      case Store => StoreKeeps(s.table, i);
      case Index =>
        assert s.table.objs[i].id.num == i + 1;
        assert TableInv(s'.table);
        assert forall j :: Live(s'.table, j) <==> Live(s.table, j);
      case TakeAck1 => SameIdents(s.table, s'.table);
      case TakeAck2 => SameIdents(s.table, s'.table);
      case _ => assert s'.table == s.table;
    }
  }

  lemma TabIdents(s: State, s': State)
    requires TabInv(s) && s'.phases == s.phases && s'.nets == s.nets
    requires s'.table.sessions == s.table.sessions && s'.table.index == s.table.index
    requires |s'.table.objs| == |s.table.objs|
    requires forall i :: 0 <= i < |s.table.objs| ==> s'.table.objs[i].id == s.table.objs[i].id
    ensures TabInv(s')
  {
    SameIdents(s.table, s'.table);
  }

  lemma TabFewer(s: State, s': State)
    requires TabInv(s) && s'.phases == s.phases && |s'.nets| == |s.nets| && s'.table.objs == s.table.objs
    requires forall k :: k in s'.table.sessions ==> k in s.table.sessions && s'.table.sessions[k] == s.table.sessions[k]
    requires forall n :: n in s'.table.index ==> n in s.table.index && s'.table.index[n] == s.table.index[n]
    ensures TabInv(s')
  {
    FewerEntries(s.table, s'.table);
  }

  predicate TouchesSessions(st: Step)
  {
    st.Start? || st.Call? || st.HandleAck? || st.CloseOne? || st.ShutClose?
  }

  /** The other steps leave the session objects and the calls alone, and only take entries out of the maps. */
  lemma QuietFrame(c: Config, s: State, st: Step)
    requires Enabled(s, st) && !TouchesSessions(st)
    ensures var s' := Apply(c, s, st);
      && s'.table.objs == s.table.objs && s'.phases == s.phases && |s'.nets| == |s.nets|
      && (forall k :: k in s'.table.sessions ==> k in s.table.sessions && s'.table.sessions[k] == s.table.sessions[k])
      && (forall n :: n in s'.table.index ==> n in s.table.index && s'.table.index[n] == s.table.index[n])
  {
  }

  /** Closing changes nothing but the closing state of session objects. */
  lemma ClosingFrame(c: Config, s: State, st: Step)
    requires Enabled(s, st) && (st.CloseOne? || st.ShutClose?)
    ensures var s' := Apply(c, s, st);
      && s'.phases == s.phases && s'.nets == s.nets
      && s'.table == CloseOnce(s.table, st.i)
  {
  }

  /** Handling an ACK changes at most one session object, and of it only the two channels. */
  lemma HandleFrame(c: Config, s: State, st: Step)
    requires st.HandleAck? && Enabled(s, st)
    ensures var s' := Apply(c, s, st);
      && s' == s.(table := s.table.(objs := s'.table.objs), stats := s'.stats)
      && |s'.table.objs| == |s.table.objs|
      && forall i :: 0 <= i < |s.table.objs| ==>
           s'.table.objs[i].id == s.table.objs[i].id && SameClosing(s.table.objs[i], s'.table.objs[i])
  {
  }

  predicate SameClosing(o: Session, o': Session)
  {
    o'.closed == o.closed && o'.closeCalls == o.closeCalls && o'.closes == o.closes
  }

  lemma TabStart(c: Config, s: State, st: Step)
    requires TabInv(s) && st.Start?
    ensures TabInv(Apply(c, s, st))
  {
    StartKeeps(s.table, st.src, st.tgt, st.flowLabel, s.now);
  }

  /** Every step keeps the table consistent. */
  lemma TabStep(c: Config, s: State, st: Step)
    requires TabInv(s) && Enabled(s, st)
    ensures TabInv(Apply(c, s, st))
  {
    var s' := Apply(c, s, st);
    if st.Start? {
      TabStart(c, s, st);
    } else if st.Call? {
      TabCall(c, s, st.i, st.a);
    } else if st.HandleAck? {
      HandleFrame(c, s, st);
      TabIdents(s, s');
    } else if st.CloseOne? || st.ShutClose? {
      ClosingFrame(c, s, st);
      TabIdents(s, s');
    } else {
      QuietFrame(c, s, st);
      TabFewer(s, s');
    }
  }

  // ---------- closing ----------

  /** Being removed: unlinked by one remover that has not yet closed it. */
  ghost predicate Leaving(s: State, i: int)
  {
    i in s.dropping || i in s.closing
  }

  /** Who may still close a session: nobody has while it is live or being removed (unless Close runs). */
  ghost predicate CloseInv(s: State)
  {
    && s.dropping !! s.closing
    && (forall i :: Leaving(s, i) ==> 0 <= i < |s.phases| && !Live(s.table, i) && !s.phases[i].Allocated?)
    && (forall i :: 0 <= i < |s.table.objs| ==> CloseCounts(s.table.objs[i]))
    && (!s.shut ==> forall i :: 0 <= i < |s.phases| && i < |s.table.objs| ==>
          && s.table.objs[i].closeCalls <= 1
          && (s.phases[i].Allocated? || Live(s.table, i) || Leaving(s, i) ==> s.table.objs[i].closeCalls == 0))
  }

  /** The channels are closed exactly once however often closing was attempted. */
  predicate CloseCounts(o: Session)
  {
    && (o.closed <==> o.closeCalls > 0)
    && o.closes == if o.closed then 1 else 0
  }

  lemma CloseSame(s: State, s': State)
    requires CloseInv(s) && |s.phases| == |s.table.objs| && s'.phases == s.phases
    requires s'.dropping == s.dropping && s'.closing == s.closing && (s.shut ==> s'.shut)
    requires |s'.table.objs| == |s.table.objs|
    requires forall i :: 0 <= i < |s.table.objs| ==> SameClosing(s.table.objs[i], s'.table.objs[i])
    requires forall i :: Live(s'.table, i) ==> Live(s.table, i)
    ensures CloseInv(s')
  {
    assert forall i :: Leaving(s', i) <==> Leaving(s, i);
  }

  lemma CloseCall(c: Config, s: State, i: nat, a: Action)
    requires TabInv(s) && CloseInv(s) && Enabled(s, Call(i, a))
    ensures CloseInv(AfterCall(c, s, i, a))
  {
    var s' := AfterCall(c, s, i, a);
    var mid := s'.(phases := s.phases);
    if a == Store {
      StoreKeeps(s.table, i);
      assert s'.table.objs == s.table.objs;
      assert forall j :: Leaving(s', j) <==> Leaving(s, j);
    } else {
      CloseSame(s, mid);
      assert forall j :: Leaving(s', j) <==> Leaving(mid, j);
      assert forall j :: 0 <= j < |s.phases| && s'.phases[j].Allocated? ==> s.phases[j].Allocated?;
    }
  }

  lemma CloseStart(c: Config, s: State, st: Step)
    requires TabInv(s) && CloseInv(s) && st.Start?
    ensures CloseInv(Apply(c, s, st))
  {
    var s' := Apply(c, s, st);
    StartKeeps(s.table, st.src, st.tgt, st.flowLabel, s.now);
    assert forall j :: Leaving(s', j) <==> Leaving(s, j);
    assert s'.table.objs[..|s.table.objs|] == s.table.objs;
  }

  lemma UnlinkKeeps(t: Table, i: nat)
    requires TableInv(t) && i < |t.objs|
    ensures forall j :: Live(Unlink(t, i), j) <==> Live(t, j) && j != i
  {
    forall j | Live(t, j) && j != i
      ensures Live(Unlink(t, i), j)
    {
      KeysUnique(t, i, j);
    }
  }

  /** The first two of a remover's three operations. */
  lemma CloseRemoval(c: Config, s: State, st: Step)
    requires TabInv(s) && CloseInv(s) && Enabled(s, st)
    requires st.UnlinkOne? || st.DropOne?
    ensures CloseInv(Apply(c, s, st))
  {
    var s' := Apply(c, s, st);
    if st.UnlinkOne? {
      UnlinkKeeps(s.table, st.i);
    }
    assert forall j :: Leaving(s', j) <==> Leaving(s, j) || j == st.i;
  }

  lemma CloseClosing(c: Config, s: State, st: Step)
    requires TabInv(s) && CloseInv(s) && Enabled(s, st)
    requires st.CloseOne? || st.ShutClose?
    ensures CloseInv(Apply(c, s, st))
  {
    var s' := Apply(c, s, st);
    SameIdents(s.table, s'.table);
    assert st.CloseOne? ==> forall j :: Leaving(s', j) <==> Leaving(s, j) && j != st.i;
    assert st.ShutClose? ==> forall j :: Leaving(s', j) <==> Leaving(s, j);
    assert forall j :: 0 <= j < |s.table.objs| && j != st.i ==> s'.table.objs[j] == s.table.objs[j];
    assert CloseCounts(s.table.objs[st.i]);
  }

  /** The remaining steps: only Close and the deletions of Close touch what closing depends on. */
  lemma CloseQuiet(c: Config, s: State, st: Step)
    requires TabInv(s) && CloseInv(s) && Enabled(s, st)
    requires !TouchesSessions(st) && !st.UnlinkOne? && !st.DropOne?
    ensures CloseInv(Apply(c, s, st))
  {
    var s' := Apply(c, s, st);
    QuietFrame(c, s, st);
    FewerEntries(s.table, s'.table);
    SetsFrame(c, s, st);
    CloseSame(s, s');
  }

  lemma SetsFrame(c: Config, s: State, st: Step)
    requires Enabled(s, st) && !TouchesSessions(st) && !st.UnlinkOne? && !st.DropOne?
    ensures var s' := Apply(c, s, st); s'.dropping == s.dropping && s'.closing == s.closing && (s.shut ==> s'.shut)
  {
  }

  /** Every step keeps removal exclusive and closing at most once. */
  lemma CloseStep(c: Config, s: State, st: Step)
    requires TabInv(s) && CloseInv(s) && Enabled(s, st)
    ensures CloseInv(Apply(c, s, st))
  {
    if st.Start? {
      CloseStart(c, s, st);
    } else if st.Call? {
      CloseCall(c, s, st.i, st.a);
    } else if st.UnlinkOne? || st.DropOne? {
      CloseRemoval(c, s, st);
    } else if st.CloseOne? || st.ShutClose? {
      CloseClosing(c, s, st);
    } else if st.HandleAck? {
      HandleFrame(c, s, st);
      CloseSame(s, Apply(c, s, st));
    } else {
      CloseQuiet(c, s, st);
    }
  }
}

/** The value a property of a process's module will have at the host once everything the process
    has emitted has arrived and run. No step of the host, of its network thread or of anybody else
    changes it. */
module HostValue {
  import opened Model
  import opened Instance
  import opened Network
  import opened NetworkInvariant
  import opened Effects

  function HostCell(s: Sys, p: nat, r: nat, k: nat): Cell
    requires p < |s.peers|
  {
    if r < |s.peers[p].ids| then CellOf(s.host.modules, s.peers[p].ids[r], k) else None
  }

  function HostPending(s: Sys, p: nat, r: nat, k: nat): seq<Effect>
    requires p < |s.peers|
  {
    if r < |s.peers[p].ids| then Saves(s.host.tasks, s.peers[p].ids[r], k)
    else if s.net.Registering? && s.net.peer == p && s.net.remote == r then [Create(PropertyOf(s.net.mod.properties, k))]
    else []
  }

  function Coming(s: Sys, p: nat, r: nat, k: nat): Cell
    requires p < |s.peers| && s.peers[p].taken <= |s.peers[p].inst.handled|
  {
    Play(HostCell(s, p, r, k), HostPending(s, p, r, k) + Says(Rest(s.peers[p]), r, k), k)
  }

  lemma ComingSplit(s: Sys, p: nat, r: nat, k: nat)
    requires p < |s.peers| && s.peers[p].taken <= |s.peers[p].inst.handled|
    ensures Coming(s, p, r, k) == Play(Play(HostCell(s, p, r, k), HostPending(s, p, r, k), k), Says(Rest(s.peers[p]), r, k), k)
  {
    PlayConcat(HostCell(s, p, r, k), HostPending(s, p, r, k), Says(Rest(s.peers[p]), r, k), k);
  }

  /** Same copy, same pending work, same rest of the stream. */
  ghost predicate SameView(s: Sys, s': Sys, p: nat, r: nat, k: nat) {
    && p < |s.peers| && p < |s'.peers|
    && s.peers[p].taken <= |s.peers[p].inst.handled| && s'.peers[p].taken <= |s'.peers[p].inst.handled|
    && Rest(s'.peers[p]) == Rest(s.peers[p])
    && HostCell(s', p, r, k) == HostCell(s, p, r, k) && HostPending(s', p, r, k) == HostPending(s, p, r, k)
  }

  /* ---- Posts to the host that do not concern the module ---- */

  lemma PostElsewhere(s: Sys, s': Sys, p: nat, r: nat, k: nat, t: Task)
    requires p < |s.peers| && s.peers[p].taken <= |s.peers[p].inst.handled|
    requires |s.peers| <= |s'.peers| && s'.peers[p] == s.peers[p]
    requires s'.host.tasks == s.host.tasks + [t] && s'.host.modules == s.host.modules
    requires !s.net.Registering? || s'.net == s.net
    requires !s'.net.Registering? || s'.net == s.net || s'.net.peer != p
    requires r < |s.peers[p].ids| ==> SaveEffect(t, s.peers[p].ids[r], k) == []
    ensures SameView(s, s', p, r, k)
  {
    if r < |s.peers[p].ids| { SavesPost(s.host.tasks, t, s.peers[p].ids[r], k); }
  }

  lemma NoPost(s: Sys, s': Sys, p: nat, r: nat, k: nat)
    requires p < |s.peers| && s.peers[p].taken <= |s.peers[p].inst.handled|
    requires |s.peers| <= |s'.peers|
    requires s'.peers[p].taken == s.peers[p].taken && s'.peers[p].ids == s.peers[p].ids && s'.peers[p].inst.handled == s.peers[p].inst.handled
    requires s'.host.tasks == s.host.tasks && s'.host.modules == s.host.modules
    requires s'.net == s.net || (!s.net.Registering? && !s'.net.Registering?)
    ensures SameView(s, s', p, r, k)
  {}

  /** An id given to a process's module belongs to nobody else. */
  lemma IdIsReplicated(s: Sys, p: nat, r: nat)
    requires IdsOk(s) && p < |s.peers| && r < |s.peers[p].ids|
    ensures var l := s.peers[p].ids[r]; 0 <= l < |s.host.origins| && s.host.origins[l] == Of(p, r) && !Owned(s.host, l)
  {}

  lemma HostAppElsewhere(s: Sys, p: nat, r: nat, k: nat, a: AppEvent)
    requires IdsOk(s) && SendsOnly(s.host) && CountsOk(s) && p < |s.peers| && Can(s, HostApp(a))
    ensures SameView(s, Do(s, HostApp(a)), p, r, k)
  {
    var s' := Do(s, HostApp(a));
    if r < |s.peers[p].ids| { IdIsReplicated(s, p, r); }
    match a
    case Decide(hostMode) => PostElsewhere(s, s', p, r, k, TInit(hostMode));
    case AppRegister(m) => PostElsewhere(s, s', p, r, k, TRegister(m, Own));
    case AppUnregister(id) => PostElsewhere(s, s', p, r, k, TUnregister(id));
    case AppSave(t, id, ups) => PostElsewhere(s, s', p, r, k, TSave(id, ups));
    case AppSend(t) => PostElsewhere(s, s', p, r, k, s.host.calling[t]);
    case CallbackUnregister(id) =>
    case CallbackUpdate(id, ups) => if r < |s.peers[p].ids| { SaveCell(s.host, id, ups, s.peers[p].ids[r], k); }
  }

  /* ---- The host's loop ---- */

  lemma RunAtCell(h: Inst, l: int, k: nat)
    requires h.tasks != [] && -1 !in h.modules
    requires h.tasks[0].TRegister? ==> l != |h.origins|
    requires h.tasks[0].TPass? && h.tasks[0].apply.id == l ==> !Touches(h.tasks[0].apply.updates, k)
    ensures var h' := RunHead(h).0;
            Play(CellOf(h'.modules, l, k), Saves(h'.tasks, l, k), k) == Play(CellOf(h.modules, l, k), Saves(h.tasks, l, k), k)
  {
    var t, i := h.tasks[0], h.(tasks := h.tasks[1..]);
    PlayConcat(CellOf(h.modules, l, k), SaveEffect(t, l, k), Saves(i.tasks, l, k), k);
    if !t.TLoad? { TaskCell(i, t, l, k); }
  }

  /** What the host's loop does, the forwarded apply aside. */
  lemma RunHostViews(s: Sys, p: nat)
    requires s.host.tasks != [] && p < |s.peers| && !(s.host.tasks[0].TRegister? && s.host.tasks[0].origin.Of?)
    ensures var s' := RunHost(s);
            && s'.host == RunHead(s.host).0 && s'.net == s.net && |s'.peers| == |s.peers|
            && s'.peers[p].inst == s.peers[p].inst && s'.peers[p].ids == s.peers[p].ids && s'.peers[p].taken == s.peers[p].taken
  {}

  lemma HostRunKeepsComing(s: Sys, p: nat, r: nat, k: nat)
    requires IdsOk(s) && CountsOk(s) && p < |s.peers| && s.host.tasks != [] && -1 !in s.host.modules
    requires !(s.host.tasks[0].TRegister? && s.host.tasks[0].origin.Of?)
    requires s.host.tasks[0].TPass? && r < |s.peers[p].ids| && s.host.tasks[0].apply.id == s.peers[p].ids[r] ==> !Touches(s.host.tasks[0].apply.updates, k)
    ensures var s' := RunHost(s); p < |s'.peers| && s'.peers[p].taken <= |s'.peers[p].inst.handled| && Coming(s', p, r, k) == Coming(s, p, r, k)
  {
    RunHostViews(s, p);
    assert CountOk(s, p);
    ComingSplit(s, p, r, k);
    ComingSplit(RunHost(s), p, r, k);
    if r < |s.peers[p].ids| {
      IdIsReplicated(s, p, r);
      RunAtCell(s.host, s.peers[p].ids[r], k);
    }
  }

  lemma {:induction false} RegisterKeepsComing(s: Sys, s': Sys, p: nat, r: nat, k: nat)
    requires Registers(s, s') && CountsOk(s) && IdsOk(s) && NetOk(s) && p < |s.peers|
    requires s'.host.tasks == s.host.tasks[1..] && s.host.tasks[0].TRegister? && TasksOk(s.host)
    ensures p < |s'.peers| && s'.peers[p].taken <= |s'.peers[p].inst.handled| && Coming(s', p, r, k) == Coming(s, p, r, k)
  {
    var n, id, m := s.net, |s.host.origins|, s.net.mod;
    assert CountOk(s, p);
    assert s'.peers[p].inst == s.peers[p].inst && s'.peers[p].taken == s.peers[p].taken;
    ComingSplit(s, p, r, k);
    ComingSplit(s', p, r, k);
    if r < |s.peers[p].ids| {
      assert s'.peers[p].ids[r] == s.peers[p].ids[r];
      assert Saves(s.host.tasks, s.peers[p].ids[r], k) == Saves(s'.host.tasks, s.peers[p].ids[r], k);
    } else if n.peer == p && n.remote == r {
      assert s'.peers[p].ids[r] == id;
      assert forall t <- s'.host.tasks :: t in s.host.tasks;
      NothingOnNewIds(s.host, s'.host.tasks, id, k);
      PlayOne(None, Create(PropertyOf(m.properties, k)), k);
    }
  }

  /* ---- The network thread reads a message of the process ---- */

  /** A module of a connected process that the table does not translate is gone, or is about to be,
      at the host. */
  lemma UntranslatedIsGone(s: Sys, c: nat, r: nat, k: nat)
    requires IdsOk(s) && RemotesOk(s) && StaleOk(s) && s.net.Idle? && c in s.live && s.live[c] < |s.peers| && r < |s.peers[s.live[c]].ids|
    requires LiveOk(s) && LocalId(s.remotes, r, c) == -1
    ensures Play(HostCell(s, s.live[c], r, k), HostPending(s, s.live[c], r, k), k) == None
  {
    var p := s.live[c];
    var l := s.peers[p].ids[r];
    IdIsReplicated(s, p, r);
    SavesCreateNothing(s.host.tasks, l, k);
    if l in s.host.modules {
      assert Accounted(s, l);
      if l in s.remotes {
        assert Maps(s.remotes, l, r, c);
      }
      KillKills(HostCell(s, p, r, k), Saves(s.host.tasks, l, k), k);
    } else {
      GoneStaysGone(Saves(s.host.tasks, l, k), k);
    }
  }

  lemma NoNegativeEntry(s: Sys)
    requires RemotesOk(s)
    ensures -1 !in s.remotes
  {}

  lemma LocalIdIs(s: Sys, c: nat, r: nat)
    requires AllocatedOk(s) && RemotesOk(s) && s.net.Idle? && c in s.live
    ensures var p := s.live[c]; var x := LocalId(s.remotes, r, c);
            x == -1 || (p < |s.peers| && r < |s.peers[p].ids| && x == s.peers[p].ids[r] && x in s.remotes)
  {
    var x := LocalId(s.remotes, r, c);
    if x != -1 {
      NoNegativeEntry(s);
      EntryIsAllocated(s, x);
    }
  }

  lemma RestStep(q: Peer, q': Peer, m: Msg, r: nat, k: nat)
    requires q.taken < |q.inst.handled| && q' == q.(taken := q.taken + 1) && Consumed(q') == Consumed(q) + [m]
    ensures Says(Rest(q), r, k) == MsgEffect(m, r, k) + Says(Rest(q'), r, k)
  {
    assert Consumed(q')[q.taken] == q.inst.handled[q.taken];
    assert q.inst.handled[q.taken] == m;
    assert Rest(q)[0] == m && Rest(q)[1..] == Rest(q');
  }

  lemma {:induction false} ReadOwn(s: Sys, s': Sys, c: nat, m: Msg, t: Task, r: nat, k: nat)
    requires Reads(s, s', c, m, t) && AllocatedOk(s) && RemotesOk(s) && StaleOk(s) && LiveOk(s)
    ensures var p := s.live[c];
            s'.peers[p].taken <= |s'.peers[p].inst.handled| && Coming(s', p, r, k) == Coming(s, p, r, k)
  {
    var p := s.live[c];
    var q, q' := s.peers[p], s'.peers[p];
    assert CountOk(s, p);
    RestStep(q, q', m, r, k);
    ComingSplit(s, p, r, k);
    ComingSplit(s', p, r, k);
    var start, before := HostCell(s, p, r, k), HostPending(s, p, r, k);
    PlayConcat(Play(start, before, k), MsgEffect(m, r, k), Says(Rest(q'), r, k), k);
    ReadOwnPending(s, s', c, m, t, r, k);
  }

  /** The message's effect moves from the stream to the host's tasks, or has none any more. */
  lemma ReadOwnPending(s: Sys, s': Sys, c: nat, m: Msg, t: Task, r: nat, k: nat)
    requires Reads(s, s', c, m, t) && AllocatedOk(s) && RemotesOk(s) && StaleOk(s) && LiveOk(s)
    ensures var p := s.live[c];
            Play(HostCell(s', p, r, k), HostPending(s', p, r, k), k)
            == Play(Play(HostCell(s, p, r, k), HostPending(s, p, r, k), k), MsgEffect(m, r, k), k)
  {
    var p := s.live[c];
    assert CountOk(s, p);
    assert HostCell(s', p, r, k) == HostCell(s, p, r, k);
    if r < |s.peers[p].ids| {
      KnownPending(s, s', c, m, t, r, k);
    } else if m.Added? && m.id == r {
      assert s'.net == Registering(c, p, r, Received(m));
    } else {
      assert HostPending(s', p, r, k) == [] == MsgEffect(m, r, k);
    }
  }

  lemma KnownPending(s: Sys, s': Sys, c: nat, m: Msg, t: Task, r: nat, k: nat)
    requires Reads(s, s', c, m, t) && AllocatedOk(s) && RemotesOk(s) && StaleOk(s) && LiveOk(s) && r < |s.peers[s.live[c]].ids|
    ensures var p := s.live[c];
            Play(HostCell(s, p, r, k), HostPending(s', p, r, k), k)
            == Play(Play(HostCell(s, p, r, k), HostPending(s, p, r, k), k), MsgEffect(m, r, k), k)
  {
    var p := s.live[c];
    var l := s.peers[p].ids[r];
    assert s'.peers[p].ids[r] == l;
    SavesPost(s.host.tasks, t, l, k);
    PlayConcat(HostCell(s, p, r, k), Saves(s.host.tasks, l, k), SaveEffect(t, l, k), k);
    ReadEffect(s, s', c, m, t, r, k);
    if m.id == r && t.id == -1 {
      UntranslatedIsGone(s, c, r, k);
      assert NoCreate(MsgEffect(m, r, k));
      GoneStaysGone(MsgEffect(m, r, k), k);
    }
  }

  /** What the posted task does to the copy is what the message says, unless no entry was found. */
  lemma ReadEffect(s: Sys, s': Sys, c: nat, m: Msg, t: Task, r: nat, k: nat)
    requires Reads(s, s', c, m, t) && AllocatedOk(s) && RemotesOk(s) && r < |s.peers[s.live[c]].ids|
    ensures (!m.Added? && m.id == r && t.id == -1 && LocalId(s.remotes, r, c) == -1)
            || SaveEffect(t, s.peers[s.live[c]].ids[r], k) == MsgEffect(m, r, k)
  {
    assert CountOk(s, s.live[c]);
    IdIsReplicated(s, s.live[c], r);
    if !m.Added? && m.id >= 0 {
      LocalIdIs(s, c, m.id);
    } else if !m.Added? {
      LocalIdOwn(s, m.id, c);
    }
  }

  lemma ReadOther(s: Sys, s': Sys, c: nat, m: Msg, t: Task, p: nat, r: nat, k: nat)
    requires Reads(s, s', c, m, t) && AllocatedOk(s) && RemotesOk(s) && p < |s.peers| && p != s.live[c]
    ensures SameView(s, s', p, r, k)
  {
    assert CountOk(s, p);
    LocalIdOwn(s, m.id, c);
    if r < |s.peers[p].ids| { IdIsReplicated(s, p, r); }
    PostElsewhere(s, s', p, r, k, t);
  }

  /* ---- Every step but the process's own ---- */

  ghost predicate Elsewhere(e: Event, p: nat) {
    (e.PeerApp? || e.PeerRun? || e.PeerReceive?) ==> e.peer != p
  }

  ghost predicate Connected(s: Sys, p: nat) {
    exists c :: c in s.live && s.live[c] == p
  }

  /** No browser request about to run at the host writes the property. */
  ghost predicate NotApplied(s: Sys, p: nat, r: nat, k: nat)
    requires p < |s.peers|
  {
    r < |s.peers[p].ids| && s.host.tasks != [] && s.host.tasks[0].TPass? && s.host.tasks[0].apply.id == s.peers[p].ids[r]
    ==> !Touches(s.host.tasks[0].apply.updates, k)
  }

  lemma CloseNextElsewhere(s: Sys, l: int, p: nat, r: nat, k: nat)
    requires IdsOk(s) && CountsOk(s) && RemotesOk(s) && NetOk(s) && p < |s.peers| && Connected(s, p) && Can(s, CloseNext(l))
    ensures SameView(s, Do(s, CloseNext(l)), p, r, k)
  {
    assert CountOk(s, p);
    assert forall c :: c in s.live ==> s.live[c] in s.live.Values;
    if r < |s.peers[p].ids| { IdIsReplicated(s, p, r); }
    PostElsewhere(s, Do(s, CloseNext(l)), p, r, k, TUnregister(l));
  }

  lemma PostedElsewhere(s: Sys, e: Event, p: nat, r: nat, k: nat)
    requires CountsOk(s) && p < |s.peers| && Can(s, e)
    requires e.BrowserApply? || e.BrowserLoad? || (e.Continue? && s.net.Updating?)
    ensures SameView(s, Do(s, e), p, r, k)
  {
    assert CountOk(s, p);
    if e.BrowserApply? {
      PostElsewhere(s, Do(s, e), p, r, k, TPass(Apply(e.id, e.updates, |s.applies|)));
    } else if e.BrowserLoad? {
      PostElsewhere(s, Do(s, e), p, r, k, TLoad);
    } else {
      PostElsewhere(s, Do(s, e), p, r, k, TSend(s.net.local, s.net.updates));
    }
  }

  /** Every step elsewhere but those of the host's loop and the reads of the process's own messages. */
  lemma {:induction false} QuietView(s: Sys, e: Event, p: nat, r: nat, k: nat)
    requires PeersOk(s) && AllocatedOk(s) && RemotesOk(s) && NetOk(s) && SendsOnly(s.host)
    requires Can(s, e) && Elsewhere(e, p) && p < |s.peers| && Connected(s, p)
    requires !e.HostRun? && !(e.Read? && s.live[e.client] == p)
    ensures SameView(s, Do(s, e), p, r, k)
  {
    assert CountOk(s, p);
    if e.HostApp? {
      HostAppElsewhere(s, p, r, k, e.app);
    } else if e.Read? {
      var m, t := ReadReads(s, e.client);
      ReadOther(s, Do(s, e), e.client, m, t, p, r, k);
    } else if e.CloseNext? {
      CloseNextElsewhere(s, e.local, p, r, k);
    } else if e.BrowserApply? || e.BrowserLoad? || (e.Continue? && s.net.Updating?) {
      PostedElsewhere(s, e, p, r, k);
    } else {
      NoPost(s, Do(s, e), p, r, k);
    }
  }

  lemma {:induction false} ElsewhereKeepsComing(s: Sys, e: Event, p: nat, r: nat, k: nat)
    requires Inv(s) && Can(s, e) && Elsewhere(e, p) && p < |s.peers| && Connected(s, p) && NotApplied(s, p, r, k)
    ensures var s' := Do(s, e);
            p < |s'.peers| && s'.peers[p].taken <= |s'.peers[p].inst.handled| && Coming(s', p, r, k) == Coming(s, p, r, k)
  {
    NoModuleIsUnknown(s.host);
    if e.HostRun? {
      if s.host.tasks[0].TRegister? && s.host.tasks[0].origin.Of? {
        HostRegisters(s);
        RegisterKeepsComing(s, RunHost(s), p, r, k) by { RegisteringPops(s); }
      } else {
        HostRunKeepsComing(s, p, r, k);
      }
    } else if e.Read? && s.live[e.client] == p {
      var m, t := ReadReads(s, e.client);
      ReadOwn(s, Do(s, e), e.client, m, t, r, k);
    } else {
      QuietView(s, e, p, r, k);
    }
  }

  lemma RegisteringPops(s: Sys)
    requires s.host.tasks != [] && s.host.tasks[0].TRegister? && s.host.tasks[0].origin.Of?
    ensures RunHost(s).host.tasks == s.host.tasks[1..]
  {}
}

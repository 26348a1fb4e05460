/** Properties that only browsers write: a request that runs at the host before the module's translation
    is stored is lost to the owner, and so owner and host agree if and only if those requests make no
    difference. */
module BrowserWrites {
  import opened Model
  import opened Instance
  import opened Network
  import opened NetworkInvariant
  import opened Routing
  import opened Effects
  import opened Announcements
  import opened Lifecycle
  import opened Syncs
  import opened HostValue
  import opened OwnerWrites
  import opened Replication
  import opened Arrivals

  /* ---- Requests in time and before ---- */

  /** If the host is about to run a request that writes the property and the module is in its table,
      then the module's translation is there too and its client is connected. */
  ghost predicate InTime(s: Sys, p: nat, r: nat, k: nat) {
    p < |s.peers| && r < |s.peers[p].ids| && s.host.tasks != [] && s.host.tasks[0].TPass? ==>
      var a := s.host.tasks[0].apply;
      a.id == s.peers[p].ids[r] && Touches(a.updates, k) && a.id in s.host.modules ==>
        a.id in s.remotes && s.remotes[a.id].client in s.live
  }

  /** No call of process p writes the property. */
  ghost predicate NeverWrittenBy(es: seq<Event>, p: nat, r: nat, k: nat) {
    forall e <- es :: e.PeerApp? && e.peer == p ==> NeverWritten(e.app, r, k)
  }

  /** Whenever the host runs a request that writes the property, it runs in time. */
  ghost predicate AllInTime(es: seq<Event>, p: nat, r: nat, k: nat) {
    forall n :: 0 <= n < |es| && es[n].HostRun? ==> InTime(Run(es[..n]), p, r, k)
  }

  lemma {:induction false} InTimeBefore(es: seq<Event>, n: nat, p: nat, r: nat, k: nat)
    requires AllInTime(es, p, r, k) && n <= |es|
    ensures AllInTime(es[..n], p, r, k)
  {
    forall j | 0 <= j < n && es[..n][j].HostRun? ensures InTime(Run(es[..n][..j]), p, r, k) {
      assert es[..n][..j] == es[..j] && es[j].HostRun?;
    }
  }

  /* ---- What the requests wrote ---- */

  /** With the updates of the request for copy l that the host is about to run, if its translation is not
      there. */
  ghost function PlusEarly(early: seq<Update>, s: Sys, l: int): seq<Update> {
    if RunsRequest(s, l) && !Timely(s, l) then early + s.host.tasks[0].apply.updates else early
  }

  /** With them if it is there. */
  ghost function PlusTimely(timely: seq<Update>, s: Sys, l: int): seq<Update> {
    if RunsRequest(s, l) && Timely(s, l) then timely + s.host.tasks[0].apply.updates else timely
  }

  /** The updates, one after the other, of the requests that the host ran for its copy l before the
      translation was there. */
  ghost function EarlyWrites(es: seq<Event>, l: int): seq<Update> {
    if es == [] then []
    else
      var n := |es| - 1;
      if es[n].HostRun? then PlusEarly(EarlyWrites(es[..n], l), Run(es[..n]), l) else EarlyWrites(es[..n], l)
  }

  /** Those of the requests that it ran while the translation was there. */
  ghost function TimelyWrites(es: seq<Event>, l: int): seq<Update> {
    if es == [] then []
    else
      var n := |es| - 1;
      if es[n].HostRun? then PlusTimely(TimelyWrites(es[..n], l), Run(es[..n]), l) else TimelyWrites(es[..n], l)
  }

  lemma {:induction false} WritesNext(es: seq<Event>, e: Event, l: int)
    ensures EarlyWrites(es + [e], l) == if e.HostRun? then PlusEarly(EarlyWrites(es, l), Run(es), l) else EarlyWrites(es, l)
    ensures TimelyWrites(es + [e], l) == if e.HostRun? then PlusTimely(TimelyWrites(es, l), Run(es), l) else TimelyWrites(es, l)
  {
    assert (es + [e])[..|es|] == es;
  }

  lemma {:induction false} NoWritesYet(es: seq<Event>, l: int)
    requires l >= |Run(es).host.origins|
    ensures EarlyWrites(es, l) == [] && TimelyWrites(es, l) == []
    decreases |es|
  {
    if es != [] {
      var n := |es| - 1;
      StepGrows(Run(es[..n]), es[n]);
      NoWritesYet(es[..n], l);
      assert l !in Run(es[..n]).host.modules by { RunsKeep(es[..n]); }
    }
  }

  /** Requests carry no negative property id. */
  ghost predicate AsksWell(s: Sys) {
    && (forall a <- s.applies :: NonNegative(a.updates))
    && (forall t <- s.host.tasks :: t.TPass? ==> NonNegative(t.apply.updates))
  }

  lemma {:induction false} RunsAskWell(es: seq<Event>)
    ensures AsksWell(Run(es))
    decreases |es|
  {
    if es != [] {
      var s, e := Run(es[..|es| - 1]), es[|es| - 1];
      RunsAskWell(es[..|es| - 1]);
      if Can(s, e) {
        if e.HostRun? {
          RunHeadGrows(s.host);
          assert RunHost(s).host == RunHead(s.host).0 && RunHost(s).applies == s.applies;
          assert forall t <- s.host.tasks[1..] :: t in s.host.tasks;
        } else {
          AsksWellStep(s, e, es[..|es| - 1]);
        }
      }
    }
  }

  lemma {:induction false} AsksWellStep(s: Sys, e: Event, es: seq<Event>)
    requires s == Run(es) && AsksWell(s) && Can(s, e) && !e.HostRun?
    ensures AsksWell(Do(s, e))
  {
    if e.HostApp? {
      assert TasksOk(s.host) by { RunsKeep(es); }
      AppAsksNothing(s.host, e.app);
    } else {
      PostAsksWell(s, e);
    }
  }

  lemma AppAsksNothing(i: Inst, e: AppEvent)
    requires SendsOnly(i) && Enabled(i, e)
    ensures forall t <- AppStep(i, e).tasks :: t.TPass? ==> t in i.tasks
  {
    AppMoves(i, e);
    if IsCallback(e) { CallbackHandles(i, e); }
  }

  lemma PostAsksWell(s: Sys, e: Event)
    requires AsksWell(s) && Can(s, e) && !e.HostRun? && !e.HostApp?
    ensures AsksWell(Do(s, e))
  {
    OthersPost(s, e);
    Asks(s, e);
    PostedAsks(s, e);
  }

  lemma PostedAsks(s: Sys, e: Event)
    requires Can(s, e)
    ensures forall t <- PostedBy(s, e) :: t.TPass? ==> e.BrowserApply? && t.apply.updates == e.updates
  {}

  lemma {:induction false} WritesAreWell(es: seq<Event>, l: int)
    ensures NonNegative(EarlyWrites(es, l)) && NonNegative(TimelyWrites(es, l))
    decreases |es|
  {
    if es != [] {
      RunsAskWell(es[..|es| - 1]);
      WritesAreWell(es[..|es| - 1], l);
      var s := Run(es[..|es| - 1]);
      assert RunsRequest(s, l) ==> s.host.tasks[0] in s.host.tasks;
    }
  }

  /** While the network thread has an id and has not stored it, no request for it has run in time. */
  lemma {:induction false} NotYetTimely(es: seq<Event>)
    ensures Run(es).net.Registered? ==> TimelyWrites(es, Run(es).net.local) == []
    decreases |es|
  {
    if es != [] && Run(es).net.Registered? {
      var n := |es| - 1;
      var s := Run(es[..n]);
      NotYetTimely(es[..n]);
      assert NetOk(s) by { RunsKeep(es[..n]); }
      if s.net.Registered? {
        SameWait(s, es[n]);
      } else {
        var l := JustRegistered(s, es[n]);
        NoWritesYet(es[..n], l);
      }
    }
  }

  lemma SameWait(s: Sys, e: Event)
    requires s.net.Registered? && Step(s, e).net.Registered? && NetOk(s)
    ensures Step(s, e).net == s.net && !Timely(s, s.net.local)
  {}

  lemma JustRegistered(s: Sys, e: Event) returns (l: int)
    requires !s.net.Registered? && Step(s, e).net.Registered?
    ensures e.HostRun? && Can(s, e) && s.host.tasks[0].TRegister? && l == |s.host.origins| && Step(s, e).net.local == l
  {
    l := |s.host.origins|;
  }

  /* ---- Where both sides stand ---- */

  /** The property as the module was announced with it. */
  function FirstCell(log: seq<Msg>, r: nat, k: nat): Cell {
    var m := Announcement(log, r);
    if m.Some? && m.value.Added? then PropertyOf(m.value.properties, k) else None
  }

  predicate Gone(i: Inst, r: nat) {
    r < |i.origins| && r !in i.modules
  }

  /** The owner will hold what it announced, with the writes of the requests that ran in time, unless the
      module is going. */
  ghost predicate OwnerStands(q: Peer, timely: seq<Update>, r: nat, k: nat) {
    var u := Arriving(q, r, k);
    u == None || u == Written(FirstCell(q.inst.handled, r, k), timely, k)
  }

  /** The host holds what was announced, with the writes of all requests, unless the module is gone. */
  ghost predicate HostStands(s: Sys, p: nat, early: seq<Update>, timely: seq<Update>, r: nat, k: nat)
    requires p < |s.peers|
  {
    var i, u := s.peers[p].inst, HostCell(s, p, r, k);
    Gone(i, r) || u == None || u == Written(FirstCell(i.handled, r, k), early + timely, k)
  }

  /** Before the host gave the module an id, the owner holds what it announced. */
  ghost predicate Unwritten(i: Inst, r: nat, k: nat) {
    CellOf(i.modules, r, k) == None || CellOf(i.modules, r, k) == FirstCell(i.handled, r, k)
  }

  ghost predicate Stands(s: Sys, p: nat, early: seq<Update>, timely: seq<Update>, r: nat, k: nat)
    requires p < |s.peers|
  {
    if r < |s.peers[p].ids| then OwnerStands(s.peers[p], timely, r, k) && HostStands(s, p, early, timely, r, k)
    else Unwritten(s.peers[p].inst, r, k)
  }

  lemma KnownIsAnnounced(i: Inst, r: nat)
    requires TableOk(i) && r < |i.origins|
    ensures Announcement(i.handled, r).Some?
  {
    var j := AnnouncedAt(i.handled, r);
    AnnouncementIs(i.handled, r, j);
  }

  lemma FirstStays(i: Inst, j: Inst, r: nat, k: nat)
    requires TableOk(i) && r < |i.origins| && i.handled <= j.handled
    ensures FirstCell(j.handled, r, k) == FirstCell(i.handled, r, k)
  {
    KnownIsAnnounced(i, r);
    AnnouncementStays(i.handled, j.handled, r);
  }

  lemma GoneByApp(i: Inst, e: AppEvent, r: nat)
    requires Enabled(i, e) && Gone(i, r)
    ensures Gone(AppStep(i, e), r)
  {}

  lemma GoneByRun(i: Inst, r: nat)
    requires i.tasks != [] && Gone(i, r)
    ensures Gone(RunHead(i).0, r)
  {}

  /* ---- The owner's own steps ---- */

  lemma OwnStepStands(s: Sys, z: Sys, p: nat, q': Peer, early: seq<Update>, timely: seq<Update>, r: nat, k: nat)
    requires p < |s.peers| && r < |s.peers[p].ids| && z == SetPeer(s, p, q') && q'.ids == s.peers[p].ids
    requires TableOk(s.peers[p].inst) && r < |s.peers[p].inst.origins| && s.peers[p].inst.handled <= q'.inst.handled
    requires Arriving(q', r, k) == Arriving(s.peers[p], r, k) || Arriving(q', r, k) == None
    requires Gone(s.peers[p].inst, r) ==> Gone(q'.inst, r)
    requires Stands(s, p, early, timely, r, k)
    ensures Stands(z, p, early, timely, r, k)
  {
    FirstStays(s.peers[p].inst, q'.inst, r, k);
  }

  lemma KnownOwnStands(s: Sys, e: Event, p: nat, early: seq<Update>, timely: seq<Update>, r: nat, k: nat)
    requires PeersOk(s) && CountsOk(s) && Can(s, e) && !Elsewhere(e, p) && p < |s.peers| && r < |s.peers[p].ids|
    requires OwnSilent(s.peers[p].inst, r, k) && (e.PeerApp? ==> NeverWritten(e.app, r, k)) && Stands(s, p, early, timely, r, k)
    ensures p < |Do(s, e).peers| && Stands(Do(s, e), p, early, timely, r, k)
  {
    var q := s.peers[p];
    assert PeerOk(q);
    NoModuleIsUnknown(q.inst);
    IdIsRegistered(s, p, r);
    if e.PeerApp? {
      AppStepGrows(q.inst, e.app);
      ArrivingApp(q, e.app, r, k);
      if Gone(q.inst, r) { GoneByApp(q.inst, e.app, r); }
      OwnStepStands(s, Do(s, e), p, q.(inst := AppStep(q.inst, e.app)), early, timely, r, k);
    } else if e.PeerRun? {
      RunHeadGrows(q.inst);
      ArrivingRun(q, r, k);
      if Gone(q.inst, r) { GoneByRun(q.inst, r); }
      OwnStepStands(s, Do(s, e), p, q.(inst := RunHead(q.inst).0), early, timely, r, k);
    } else {
      ArrivingReceive(q, r, k);
      OwnStepStands(s, Do(s, e), p, q.(inst := Post(q.inst, TPass(q.down[0])), down := q.down[1..]), early, timely, r, k);
    }
  }

  lemma UnwrittenMove(i: Inst, j: Inst, r: nat, k: nat)
    requires TableOk(i) && i.handled <= j.handled && Unwritten(i, r, k)
    requires CellOf(j.modules, r, k) == CellOf(i.modules, r, k) || CellOf(j.modules, r, k) == None
    ensures Unwritten(j, r, k)
  {
    if CellOf(i.modules, r, k).Some? { FirstStays(i, j, r, k); }
  }

  lemma UnwrittenApp(i: Inst, e: AppEvent, r: nat, k: nat)
    requires TableOk(i) && Enabled(i, e) && NeverWritten(e, r, k) && Unwritten(i, r, k)
    ensures Unwritten(AppStep(i, e), r, k)
  {
    AppStepGrows(i, e);
    AppMoves(i, e);
    if IsCallback(e) { CallbackCell(i, e, r, k); }
    UnwrittenMove(i, AppStep(i, e), r, k);
  }

  lemma UnwrittenRegistration(i: Inst, r: nat, k: nat)
    requires TableOk(i) && i.tasks != [] && i.tasks[0].TRegister? && r == |i.origins|
    ensures Unwritten(RunHead(i).0, r, k)
  {
    var m := AddedMsg(r, i.tasks[0].mod);
    assert RunHead(i).0.handled == i.handled + [m];
    NotYetAnnounced(i.handled, r);
    AnnouncementNext(i.handled, m, r);
  }

  lemma UnwrittenRun(i: Inst, r: nat, k: nat)
    requires TableOk(i) && i.tasks != [] && NoWrite(Saves(i.tasks, r, k)) && NoPassWrites(i, r, k) && Unwritten(i, r, k)
    ensures Unwritten(RunHead(i).0, r, k)
  {
    RunHeadGrows(i);
    if r < |i.origins| {
      HeadCell(i, r, k);
      PassedCell(CellOf(i.modules, r, k), i.tasks[0], r, k);
      UnwrittenMove(i, RunHead(i).0, r, k);
    } else if i.tasks[0].TRegister? && r == |i.origins| {
      UnwrittenRegistration(i, r, k);
    } else {
      StillUnknown(i, r);
    }
  }

  lemma StillUnknown(i: Inst, r: nat)
    requires TableOk(i) && i.tasks != [] && r >= |i.origins| && !(i.tasks[0].TRegister? && r == |i.origins|)
    ensures r !in RunHead(i).0.modules
  {}

  lemma UnknownOwnStands(s: Sys, e: Event, p: nat, early: seq<Update>, timely: seq<Update>, r: nat, k: nat)
    requires PeersOk(s) && Routes(s) && OriginsOk(s) && Can(s, e) && !Elsewhere(e, p) && p < |s.peers| && r >= |s.peers[p].ids|
    requires OwnSilent(s.peers[p].inst, r, k) && (e.PeerApp? ==> NeverWritten(e.app, r, k)) && Stands(s, p, early, timely, r, k)
    ensures p < |Do(s, e).peers| && Stands(Do(s, e), p, early, timely, r, k)
  {
    var q := s.peers[p];
    assert PeerOk(q);
    OthersKeepIds(s, e, p);
    if e.PeerApp? {
      UnwrittenApp(q.inst, e.app, r, k);
    } else if e.PeerRun? {
      NoPassYet(s, p, r, k);
      KillsAreNoWrites(Saves(q.inst.tasks, r, k));
      UnwrittenRun(q.inst, r, k);
    }
  }

  /* ---- Steps elsewhere ---- */

  lemma SameStands(s: Sys, z: Sys, p: nat, early: seq<Update>, timely: seq<Update>, r: nat, k: nat)
    requires p < |s.peers| && p < |z.peers| && z.peers[p].inst == s.peers[p].inst && z.peers[p].ids == s.peers[p].ids
    requires r < |s.peers[p].ids| ==> Arriving(z.peers[p], r, k) == Arriving(s.peers[p], r, k)
    requires r < |s.peers[p].ids| ==> HostCell(z, p, r, k) == HostCell(s, p, r, k) || HostCell(z, p, r, k) == None
    requires Stands(s, p, early, timely, r, k)
    ensures Stands(z, p, early, timely, r, k)
  {}

  lemma QuietStands(s: Sys, e: Event, p: nat, early: seq<Update>, timely: seq<Update>, r: nat, k: nat)
    requires Inv(s) && Can(s, e) && Elsewhere(e, p) && !e.HostRun? && p < |s.peers| && Connected(s, p) && Stands(s, p, early, timely, r, k)
    ensures p < |Do(s, e).peers| && Stands(Do(s, e), p, early, timely, r, k)
  {
    OthersKeepIds(s, e, p);
    OthersKeepProcess(s, e, p);
    if e.Read? {
      ReadKeepsTable(s, e.client);
    } else {
      NoModuleIsUnknown(s.host);
      QuietView(s, e, p, r, k);
    }
    SameArriving(s.peers[p], Do(s, e).peers[p], r, k);
    SameStands(s, Do(s, e), p, early, timely, r, k);
  }

  lemma ReadKeepsTable(s: Sys, c: nat)
    requires CanRead(s, c)
    ensures ReadMsg(s, c).host.modules == s.host.modules
  {}

  /* ---- The host's loop ---- */

  lemma OldCopyStays(s: Sys, s': Sys, p: nat, r: nat, k: nat)
    requires Registers(s, s') && AllocatedOk(s) && NetOk(s) && p < |s.peers| && r < |s.peers[p].ids|
    ensures HostCell(s', p, r, k) == HostCell(s, p, r, k) && r < |s'.peers[p].ids| && s'.peers[p].ids[r] == s.peers[p].ids[r]
    ensures s'.peers[p].down == s.peers[p].down && s'.peers[p].inst == s.peers[p].inst
  {
    IdIsReplicated(s, p, r);
  }

  /** The host gives the module its id: both sides stand at the announced value. */
  lemma NewCopyStands(s: Sys, s': Sys, p: nat, r: nat, k: nat)
    requires Registers(s, s') && OriginsOk(s) && AwaitsAnnounced(s) && p < |s.peers| && PeerRoutes(s, p, s.peers[p])
    requires |s.peers[p].ids| <= r < |s'.peers[p].ids| && Unwritten(s.peers[p].inst, r, k) && NetOk(s)
    ensures p < |s'.peers| && Stands(s', p, [], [], r, k)
  {
    var q, x := s.peers[p], PropertyOf(s.net.mod.properties, k);
    assert s.net.peer == p && s.net.remote == r && s'.peers[p].ids[r] == |s.host.origins|;
    assert s'.peers[p].inst == q.inst && s'.peers[p].down == q.down;
    assert FirstCell(q.inst.handled, r, k) == x && HostCell(s', p, r, k) == x;
    assert Written(x, [], k) == x;
    NothingToPass(s, p, q.inst.tasks, r, k);
    NothingFalls(s, p, q.down, r, k);
    assert Passing(q.inst.tasks, r, k) + Falling(q.down, r, k) == Passing(q.inst.tasks, r, k);
    KillsLeave(CellOf(q.inst.modules, r, k), Passing(q.inst.tasks, r, k), k);
  }

  lemma {:induction false} RegisterStands(s: Sys, p: nat, early: seq<Update>, timely: seq<Update>, r: nat, k: nat)
    requires NetOk(s) && TableOk(s.host) && TasksOk(s.host) && RemotesOk(s) && AllocatedOk(s)
    requires AwaitsAnnounced(s) && p < |s.peers| && PeerRoutes(s, p, s.peers[p])
    requires s.host.tasks != [] && s.host.tasks[0].TRegister? && s.host.tasks[0].origin.Of?
    requires Stands(s, p, early, timely, r, k)
    ensures p < |RunHost(s).peers|
    ensures Stands(RunHost(s), p, if r < |s.peers[p].ids| then early else [], if r < |s.peers[p].ids| then timely else [], r, k)
  {
    var z := RunHost(s);
    HostRegisters(s);
    if r < |s.peers[p].ids| {
      OldCopyStays(s, z, p, r, k);
      SameArriving(s.peers[p], z.peers[p], r, k);
    } else if r < |z.peers[p].ids| {
      NewCopyStands(s, z, p, r, k);
    } else {
      assert z.peers[p].inst == s.peers[p].inst;
    }
  }

  /** The request runs at the host and sets off to the process. */
  lemma TimelyStands(s: Sys, p: nat, early: seq<Update>, timely: seq<Update>, r: nat, k: nat)
    requires IdsOk(s) && RemotesOk(s) && NetOk(s) && LiveOk(s) && CallbacksOwned(s.host) && -1 !in s.host.modules
    requires p < |s.peers| && r < |s.peers[p].ids| && RunsRequest(s, s.peers[p].ids[r]) && Timely(s, s.peers[p].ids[r])
    requires NoWrite(Saves(s.host.tasks, s.peers[p].ids[r], k)) && NonNegative(early) && NonNegative(timely)
    requires Stands(s, p, early, timely, r, k)
    ensures p < |RunHost(s).peers| && Stands(RunHost(s), p, early, timely + s.host.tasks[0].apply.updates, r, k)
  {
    RunHostViews(s, p);
    CopyTakes(s, p, r, k);
    OwnerTakes(s, p, r, k);
    BothStand(s, RunHost(s), p, early, timely, s.host.tasks[0].apply.updates, r, k);
  }

  lemma BothStand(s: Sys, z: Sys, p: nat, early: seq<Update>, timely: seq<Update>, ups: seq<Update>, r: nat, k: nat)
    requires p < |s.peers| && p < |z.peers| && r < |s.peers[p].ids| && z.peers[p].ids == s.peers[p].ids && z.peers[p].inst == s.peers[p].inst
    requires Arriving(z.peers[p], r, k) == Written(Arriving(s.peers[p], r, k), ups, k)
    requires HostCell(z, p, r, k) == Written(HostCell(s, p, r, k), ups, k)
    requires NonNegative(early) && NonNegative(timely) && Stands(s, p, early, timely, r, k)
    ensures Stands(z, p, early, timely + ups, r, k)
  {
    BothTake(s.peers[p].inst.handled, early, timely, ups, r, k);
  }

  lemma BothTake(log: seq<Msg>, early: seq<Update>, timely: seq<Update>, ups: seq<Update>, r: nat, k: nat)
    requires NonNegative(early) && NonNegative(timely)
    ensures var first := FirstCell(log, r, k);
            && Written(first, timely + ups, k) == Written(Written(first, timely, k), ups, k)
            && Written(first, early + (timely + ups), k) == Written(Written(first, early + timely, k), ups, k)
  {
    var first := FirstCell(log, r, k);
    WrittenConcat(first, timely, ups, k);
    WrittenConcat(first, early + timely, ups, k);
    assert early + (timely + ups) == early + timely + ups;
  }

  lemma OwnerTakes(s: Sys, p: nat, r: nat, k: nat)
    requires IdsOk(s) && RemotesOk(s) && NetOk(s) && LiveOk(s) && CallbacksOwned(s.host)
    requires p < |s.peers| && r < |s.peers[p].ids| && RunsRequest(s, s.peers[p].ids[r]) && Timely(s, s.peers[p].ids[r])
    ensures p < |RunHost(s).peers|
    ensures Arriving(RunHost(s).peers[p], r, k) == Written(Arriving(s.peers[p], r, k), s.host.tasks[0].apply.updates, k)
  {
    var a, q := s.host.tasks[0].apply, s.peers[p];
    if a.updates == [] {
      NotSent(s);
      NothingToWrite(Arriving(q, r, k), k);
    } else {
      SentInTime(s, p, r);
      ArrivingTakes(q, a.(id := r), r, k);
    }
  }

  lemma NothingToWrite(c: Cell, k: nat)
    ensures Written(c, [], k) == c
  {}

  lemma ArrivingTakes(q: Peer, a: Apply, r: nat, k: nat)
    requires a.id == r
    ensures Arriving(q.(down := q.down + [a]), r, k) == Written(Arriving(q, r, k), a.updates, k)
  {
    ArrivingMore(q, a, r, k);
    WrittenIs(Arriving(q, r, k), a.updates, k);
  }

  lemma CopyTakes(s: Sys, p: nat, r: nat, k: nat)
    requires IdsOk(s) && -1 !in s.host.modules && p < |s.peers| && r < |s.peers[p].ids| && RunsRequest(s, s.peers[p].ids[r])
    requires NoWrite(Saves(s.host.tasks, s.peers[p].ids[r], k))
    ensures p < |RunHost(s).peers| && r < |RunHost(s).peers[p].ids|
    ensures HostCell(RunHost(s), p, r, k) == Written(HostCell(s, p, r, k), s.host.tasks[0].apply.updates, k)
  {
    RunHostViews(s, p);
    IdIsReplicated(s, p, r);
    HeadCell(s.host, s.peers[p].ids[r], k);
    WrittenIs(HostCell(s, p, r, k), s.host.tasks[0].apply.updates, k);
  }

  /** The request runs at the host and goes nowhere; none has run in time before. */
  lemma EarlyStands(s: Sys, p: nat, early: seq<Update>, timely: seq<Update>, r: nat, k: nat)
    requires IdsOk(s) && -1 !in s.host.modules
    requires p < |s.peers| && r < |s.peers[p].ids| && RunsRequest(s, s.peers[p].ids[r]) && !Timely(s, s.peers[p].ids[r])
    requires NoWrite(Saves(s.host.tasks, s.peers[p].ids[r], k)) && NonNegative(early)
    requires Gone(s.peers[p].inst, r) || timely == []
    requires Stands(s, p, early, timely, r, k)
    ensures p < |RunHost(s).peers| && Stands(RunHost(s), p, early + s.host.tasks[0].apply.updates, timely, r, k)
  {
    var a, q := s.host.tasks[0].apply, s.peers[p];
    NotSent(s);
    RunHostViews(s, p);
    CopyTakes(s, p, r, k);
    WrittenConcat(FirstCell(q.inst.handled, r, k), early, a.updates, k);
    assert timely == [] ==> early + timely == early && early + a.updates + timely == early + a.updates;
  }

  lemma OtherStands(s: Sys, p: nat, early: seq<Update>, timely: seq<Update>, r: nat, k: nat)
    requires AllocatedOk(s) && RemotesOk(s) && NetOk(s) && LiveOk(s) && -1 !in s.host.modules && p < |s.peers|
    requires s.host.tasks != [] && !(s.host.tasks[0].TRegister? && s.host.tasks[0].origin.Of?)
    requires r < |s.peers[p].ids| ==> !RunsRequest(s, s.peers[p].ids[r]) && NoWrite(Saves(s.host.tasks, s.peers[p].ids[r], k))
    requires Stands(s, p, early, timely, r, k)
    ensures p < |RunHost(s).peers| && Stands(RunHost(s), p, early, timely, r, k)
  {
    RunHostViews(s, p);
    if r < |s.peers[p].ids| {
      var l := s.peers[p].ids[r];
      IdIsReplicated(s, p, r);
      SentOtherwise(s, p, r, k);
      HeadCell(s.host, l, k);
      PassedCell(CellOf(s.host.modules, l, k), s.host.tasks[0], l, k);
      SameArriving(s.peers[p], RunHost(s).peers[p], r, k);
    }
    SameStands(s, RunHost(s), p, early, timely, r, k);
  }

  /* ---- A module that is still there ---- */

  lemma {:induction false} RemovedStays(log: seq<Msg>, n: nat, r: int)
    requires WellNumbered(log) && n <= |log| && 0 <= r < NumAdds(log[..n]) && r !in Replay(log[..n])
    ensures r !in Replay(log)
    decreases |log|
  {
    if n == |log| {
      assert log[..n] == log;
    } else {
      var m := |log| - 1;
      assert log[..m][..n] == log[..n];
      PrefixWellNumbered(log[..m], n);
      RemovedStays(log[..m], n, r);
      assert Replay(log) == ReplayOne(Replay(log[..m]), log[m]);
    }
  }

  /** A module that its connected owner still has is translated, or its translation is about to be
      stored. */
  lemma TranslatedOrAwaited(s: Sys, c: nat, r: nat)
    requires PeersOk(s) && AllocatedOk(s) && RemotesOk(s) && NetOk(s) && LiveOk(s) && MirrorsOk(s) && c in s.live
    requires var q := s.peers[s.live[c]]; r < |q.ids| && !Gone(q.inst, r)
    ensures var l := s.peers[s.live[c]].ids[r]; Timely(s, l) || (s.net.Registered? && s.net.local == l)
  {
    var p := s.live[c];
    assert PeerOk(s.peers[p]) && CountOk(s, p) && MirrorOk(s, c);
    IdIsRegistered(s, p, r);
    StillSeen(s.peers[p], r);
    assert Copies(s, p, r, Replay(Consumed(s.peers[p]))[r]);
    CopyIsTimely(s, c, r);
  }

  /** The host has seen the announcement of a module that is still there, and no removal. */
  lemma StillSeen(q: Peer, r: nat)
    requires TableOk(q.inst) && q.taken <= |q.inst.handled| && r < |q.inst.origins| && !Gone(q.inst, r) && r < NumAdds(Consumed(q))
    ensures r in Replay(Consumed(q))
  {
    assert r in TableOf(q.inst.modules);
    if r !in Replay(Consumed(q)) { RemovedStays(q.inst.handled, q.taken, r); }
  }

  lemma CopyIsTimely(s: Sys, c: nat, r: nat)
    requires IdsOk(s) && RemotesOk(s) && NetOk(s) && c in s.live && s.live[c] < |s.peers| && r < |s.peers[s.live[c]].ids|
    requires var l := s.peers[s.live[c]].ids[r]; (l in s.remotes && !Doomed(s.net, l)) || (s.net.Registered? && s.net.local == l)
    ensures var l := s.peers[s.live[c]].ids[r]; Timely(s, l) || (s.net.Registered? && s.net.local == l)
  {
    var l := s.peers[s.live[c]].ids[r];
    IdIsReplicated(s, s.live[c], r);
    if l in s.remotes {
      assert s.host.origins[l] == Of(PeerOf(s, s.remotes[l].client), s.remotes[l].id);
      assert s.live[c] in s.live.Values;
    }
  }

  /* ---- Every step, every run ---- */

  lemma RequestStands(s: Sys, p: nat, early: seq<Update>, timely: seq<Update>, r: nat, k: nat)
    requires IdsOk(s) && RemotesOk(s) && NetOk(s) && LiveOk(s) && CallbacksOwned(s.host) && -1 !in s.host.modules
    requires p < |s.peers| && r < |s.peers[p].ids| && RunsRequest(s, s.peers[p].ids[r]) && NoWrite(Saves(s.host.tasks, s.peers[p].ids[r], k))
    requires NonNegative(early) && NonNegative(timely) && Decided(s, p, timely, r)
    requires Stands(s, p, early, timely, r, k)
    ensures p < |RunHost(s).peers|
    ensures Stands(RunHost(s), p, PlusEarly(early, s, s.peers[p].ids[r]), PlusTimely(timely, s, s.peers[p].ids[r]), r, k)
  {
    if Timely(s, s.peers[p].ids[r]) {
      TimelyStands(s, p, early, timely, r, k);
    } else {
      EarlyStands(s, p, early, timely, r, k);
    }
  }

  /** Requests have run in time only if those that run now do, or the module is gone. */
  ghost predicate Decided(s: Sys, p: nat, timely: seq<Update>, r: nat)
    requires p < |s.peers|
  {
    r < |s.peers[p].ids| ==> Timely(s, s.peers[p].ids[r]) || Gone(s.peers[p].inst, r) || timely == []
  }

  /** What the host's loop does to a module that it has given an id. */
  lemma KnownRunStands(s: Sys, p: nat, early: seq<Update>, timely: seq<Update>, r: nat, k: nat)
    requires AllocatedOk(s) && RemotesOk(s) && NetOk(s) && LiveOk(s) && CallbacksOwned(s.host) && -1 !in s.host.modules
    requires p < |s.peers| && s.host.tasks != [] && !(s.host.tasks[0].TRegister? && s.host.tasks[0].origin.Of?)
    requires r < |s.peers[p].ids| && NoWrite(Saves(s.host.tasks, s.peers[p].ids[r], k))
    requires NonNegative(early) && NonNegative(timely) && Decided(s, p, timely, r)
    requires Stands(s, p, early, timely, r, k)
    ensures p < |RunHost(s).peers|
    ensures Stands(RunHost(s), p, PlusEarly(early, s, s.peers[p].ids[r]), PlusTimely(timely, s, s.peers[p].ids[r]), r, k)
  {
    if RunsRequest(s, s.peers[p].ids[r]) {
      RequestStands(s, p, early, timely, r, k);
    } else {
      OtherStands(s, p, early, timely, r, k);
    }
  }

  lemma {:induction false} EventStands(s: Sys, e: Event, p: nat, early: seq<Update>, timely: seq<Update>, r: nat, k: nat)
    requires Inv(s) && Routes(s) && Can(s, e) && !e.HostRun? && p < |s.peers| && Connected(s, p)
    requires CountOk(s, p) && Silent(s, p, r, k) && (e.PeerApp? && e.peer == p ==> NeverWritten(e.app, r, k))
    requires Stands(s, p, early, timely, r, k)
    ensures p < |Do(s, e).peers| && Stands(Do(s, e), p, early, timely, r, k)
  {
    if Elsewhere(e, p) {
      QuietStands(s, e, p, early, timely, r, k);
    } else if r < |s.peers[p].ids| {
      KnownOwnStands(s, e, p, early, timely, r, k);
    } else {
      UnknownOwnStands(s, e, p, early, timely, r, k);
    }
  }

  /** The requests so far for the module, when the host has given it an id. */
  ghost function EarlyOf(es: seq<Event>, s: Sys, p: nat, r: nat): seq<Update>
    requires p < |s.peers|
  {
    if r < |s.peers[p].ids| then EarlyWrites(es, s.peers[p].ids[r]) else []
  }

  ghost function TimelyOf(es: seq<Event>, s: Sys, p: nat, r: nat): seq<Update>
    requires p < |s.peers|
  {
    if r < |s.peers[p].ids| then TimelyWrites(es, s.peers[p].ids[r]) else []
  }

  ghost predicate StandsAfter(es: seq<Event>, p: nat, r: nat, k: nat) {
    var s := Run(es);
    p < |s.peers| ==>
      CountOk(s, p) && Silent(s, p, r, k) && Stands(s, p, EarlyOf(es, s, p, r), TimelyOf(es, s, p, r), r, k)
  }

  lemma NewProcessStands(s: Sys, c: nat, r: nat, k: nat)
    requires Can(s, Join(c))
    ensures var z, p := Do(s, Join(c)), |s.peers|;
            p < |z.peers| && z.peers[p].ids == [] && z.peers[p].taken <= |z.peers[p].inst.handled|
            && Silent(z, p, r, k) && Stands(z, p, [], [], r, k)
  {}

  /** An id that the host's loop gives is the next one. */
  lemma NewIdIsNext(s: Sys, p: nat, r: nat)
    requires s.host.tasks != [] && p < |s.peers|
    ensures p < |RunHost(s).peers| && s.peers[p].ids <= RunHost(s).peers[p].ids
    ensures |s.peers[p].ids| <= r < |RunHost(s).peers[p].ids| ==>
              RunHost(s).peers[p].ids[r] == |s.host.origins| && s.host.tasks[0].TRegister? && s.host.tasks[0].origin.Of?
  {
    if !(s.host.tasks[0].TRegister? && s.host.tasks[0].origin.Of?) { RunHostViews(s, p); }
  }

  /** What has run for the module after one more step of the host's loop; for an id just given, nothing. */
  lemma {:induction false} WritesAfterRun(es: seq<Event>, p: nat, r: nat)
    requires Run(es).host.tasks != [] && p < |Run(es).peers|
    ensures var s, z, more := Run(es), RunHost(Run(es)), es + [HostRun];
            && p < |z.peers| && s.peers[p].ids <= z.peers[p].ids
            && EarlyOf(more, z, p, r) == (if r < |s.peers[p].ids| then PlusEarly(EarlyOf(es, s, p, r), s, s.peers[p].ids[r]) else [])
            && TimelyOf(more, z, p, r) == if r < |s.peers[p].ids| then PlusTimely(TimelyOf(es, s, p, r), s, s.peers[p].ids[r]) else []
  {
    var s, z := Run(es), RunHost(Run(es));
    NewIdIsNext(s, p, r);
    if r < |z.peers[p].ids| {
      WritesNext(es, HostRun, z.peers[p].ids[r]);
      if r >= |s.peers[p].ids| { NoWritesYet(es, |s.host.origins|); }
    }
  }

  /** No other step runs a request. */
  lemma {:induction false} WritesAfterOther(es: seq<Event>, e: Event, p: nat, r: nat)
    requires Can(Run(es), e) && !e.HostRun? && p < |Run(es).peers|
    ensures var s, z, more := Run(es), Do(Run(es), e), es + [e];
            p < |z.peers| && EarlyOf(more, z, p, r) == EarlyOf(es, s, p, r) && TimelyOf(more, z, p, r) == TimelyOf(es, s, p, r)
  {
    OthersKeepIds(Run(es), e, p);
    if r < |Run(es).peers[p].ids| { WritesNext(es, e, Run(es).peers[p].ids[r]); }
  }

  /** What the invariants say that the host's loop relies on. */
  ghost predicate Ready(s: Sys, p: nat) {
    && AllocatedOk(s) && RemotesOk(s) && NetOk(s) && LiveOk(s) && TableOk(s.host) && TasksOk(s.host) && -1 !in s.host.modules
    && CallbacksOwned(s.host) && AwaitsAnnounced(s) && p < |s.peers| && PeerRoutes(s, p, s.peers[p])
  }

  lemma {:induction false} RunsAreReady(es: seq<Event>, p: nat)
    requires p < |Run(es).peers|
    ensures Ready(Run(es), p)
  {
    RunsKeep(es);
    assert Routes(Run(es)) by { RunsRoute(es); }
    assert AwaitsAnnounced(Run(es)) by { RunsEcho(es); }
    NoModuleIsUnknown(Run(es).host);
  }

  lemma {:induction false} RunsAreDecided(es: seq<Event>, p: nat, r: nat)
    requires p < |Run(es).peers| && Connected(Run(es), p)
    ensures Decided(Run(es), p, TimelyOf(es, Run(es), p, r), r)
  {
    var s := Run(es);
    var c :| c in s.live && s.live[c] == p;
    NotYetTimely(es);
    if r < |s.peers[p].ids| && !Gone(s.peers[p].inst, r) {
      RunsKeep(es);
      TranslatedOrAwaited(s, c, r);
    }
  }

  lemma HostRunStands(s: Sys, p: nat, early: seq<Update>, timely: seq<Update>, r: nat, k: nat)
    requires Ready(s, p) && s.host.tasks != [] && NonNegative(early) && NonNegative(timely)
    requires r < |s.peers[p].ids| ==> NoWrite(Saves(s.host.tasks, s.peers[p].ids[r], k))
    requires Decided(s, p, timely, r) && (r >= |s.peers[p].ids| ==> early == timely == [])
    requires Stands(s, p, early, timely, r, k)
    ensures p < |RunHost(s).peers|
    ensures var known := r < |s.peers[p].ids|;
            Stands(RunHost(s), p, if known then PlusEarly(early, s, s.peers[p].ids[r]) else [],
                   if known then PlusTimely(timely, s, s.peers[p].ids[r]) else [], r, k)
  {
    if s.host.tasks[0].TRegister? && s.host.tasks[0].origin.Of? {
      RegisterStands(s, p, early, timely, r, k);
    } else if r < |s.peers[p].ids| {
      KnownRunStands(s, p, early, timely, r, k);
    } else {
      OtherStands(s, p, early, timely, r, k);
    }
  }

  lemma {:induction false} RunStepStands(es: seq<Event>, p: nat, r: nat, k: nat)
    requires Run(es).host.tasks != [] && p < |Run(es).peers| && Connected(Run(es), p) && StandsAfter(es, p, r, k)
    ensures var z, more := RunHost(Run(es)), es + [HostRun];
            p < |z.peers| && Stands(z, p, EarlyOf(more, z, p, r), TimelyOf(more, z, p, r), r, k)
  {
    var s := Run(es);
    RunsAreReady(es, p);
    RunsAreDecided(es, p, r);
    if r < |s.peers[p].ids| { WritesAreWell(es, s.peers[p].ids[r]); }
    HostRunStands(s, p, EarlyOf(es, s, p, r), TimelyOf(es, s, p, r), r, k);
    WritesAfterRun(es, p, r);
  }

  lemma {:induction false} OtherStepStands(es: seq<Event>, e: Event, p: nat, r: nat, k: nat)
    requires Can(Run(es), e) && !e.HostRun? && p < |Run(es).peers| && Connected(Run(es), p) && StandsAfter(es, p, r, k)
    requires e.PeerApp? && e.peer == p ==> NeverWritten(e.app, r, k)
    ensures var z, more := Do(Run(es), e), es + [e];
            p < |z.peers| && Stands(z, p, EarlyOf(more, z, p, r), TimelyOf(more, z, p, r), r, k)
  {
    var s := Run(es);
    RunsKeep(es);
    RunsRoute(es);
    EventStands(s, e, p, EarlyOf(es, s, p, r), TimelyOf(es, s, p, r), r, k);
    WritesAfterOther(es, e, p, r);
  }

  lemma {:induction false} StepStands(es: seq<Event>, e: Event, p: nat, r: nat, k: nat)
    requires Can(Run(es), e) && p < |Run(es).peers| && Connected(Run(es), p) && StandsAfter(es, p, r, k)
    requires e.PeerApp? && e.peer == p ==> NeverWritten(e.app, r, k)
    ensures p < |Run(es + [e]).peers| && CountOk(Run(es + [e]), p) ==> StandsAfter(es + [e], p, r, k)
  {
    RunNext(es, e);
    SilentAfter(es, e, p, r, k);
    if e.HostRun? { RunStepStands(es, p, r, k); } else { OtherStepStands(es, e, p, r, k); }
  }

  lemma {:induction false} SilentAfter(es: seq<Event>, e: Event, p: nat, r: nat, k: nat)
    requires var s := Run(es); Can(s, e) && p < |s.peers| && Connected(s, p) && CountOk(s, p) && Silent(s, p, r, k)
    requires e.PeerApp? && e.peer == p ==> NeverWritten(e.app, r, k)
    ensures var z := Do(Run(es), e); p < |z.peers| && z.peers[p].taken <= |z.peers[p].inst.handled| && Silent(z, p, r, k)
  {
    RunsKeep(es);
    SilentStep(Run(es), e, p, r, k);
  }

  lemma {:induction false} RunsStand(es: seq<Event>, p: nat, r: nat, k: nat)
    requires NeverWrittenBy(es, p, r, k) && Connected(Run(es), p)
    ensures StandsAfter(es, p, r, k)
    decreases |es|
  {
    if es != [] {
      var before, e := es[..|es| - 1], es[|es| - 1];
      var s := Run(before);
      assert es == before + [e] && e in es && forall x <- before :: x in es;
      assert p < |Run(es).peers| ==> CountOk(Run(es), p) by { RunsKeep(es); }
      if p < |s.peers| {
        ConnectedBefore(s, e, p);
        RunsStand(before, p, r, k);
        if Can(s, e) { StepStands(before, e, p, r, k); } else { NothingDone(before, e, p, r, k); }
      } else if Can(s, e) {
        PeersJoin(s, e);
        if e.Join? { NewProcessStands(s, e.client, r, k); }
      }
    }
  }

  lemma {:induction false} NothingDone(es: seq<Event>, e: Event, p: nat, r: nat, k: nat)
    requires !Can(Run(es), e) && StandsAfter(es, p, r, k)
    ensures StandsAfter(es + [e], p, r, k)
  {
    RunNext(es, e);
    if p < |Run(es).peers| && r < |Run(es).peers[p].ids| { NothingWritten(es, e, Run(es).peers[p].ids[r]); }
  }

  lemma {:induction false} NothingWritten(es: seq<Event>, e: Event, l: int)
    requires !Can(Run(es), e)
    ensures EarlyWrites(es + [e], l) == EarlyWrites(es, l) && TimelyWrites(es + [e], l) == TimelyWrites(es, l)
  {
    WritesNext(es, e, l);
    assert e.HostRun? ==> !RunsRequest(Run(es), l);
  }

  /* ---- Value convergence ---- */

  /** When everything is drained, the id that the table translates is the one the host gave. */
  lemma {:induction false} DrainedCells(es: seq<Event>, c: nat, r: nat, k: nat)
    requires var s := Run(es); c in s.live && s.live[c] < |s.peers| && Drained(s, s.peers[s.live[c]]) && r in s.peers[s.live[c]].inst.modules
    ensures var s, l := Run(es), LocalId(Run(es).remotes, r, c);
            && r < |s.peers[s.live[c]].ids| && s.peers[s.live[c]].ids[r] == l
            && (CellOf(s.host.modules, l, k) == None <==> CellOf(s.peers[s.live[c]].inst.modules, r, k) == None)
  {
    RunsKeep(es);
    DrainedTablesCorrespond(es, c);
    var s, l := Run(es), LocalId(Run(es).remotes, r, c);
    EntryIsAllocated(s, l);
    assert ShapeOf(s.host.modules[l]) == ShapeOf(s.peers[s.live[c]].inst.modules[r]);
  }

  /** One writer at the owner: if a property is written only by one thread of its process, or only in
      its callbacks, and by no browser, then whenever everything is drained and no call is half made
      the host holds exactly the owner's property. */
  lemma {:induction false} OwnerValueReachesHost(es: seq<Event>, w: Writer, c: nat, r: nat, k: nat)
    requires var s := Run(es); c in s.live && s.live[c] < |s.peers| && Drained(s, s.peers[s.live[c]]) && r in s.peers[s.live[c]].inst.modules
    requires Run(es).peers[Run(es).live[c]].inst.calling == map[]
    requires WrittenBy(es, w, Run(es).live[c], r, k) && Unrequested(Run(es), Run(es).live[c], r, k)
    ensures var s := Run(es);
            CellOf(s.host.modules, LocalId(s.remotes, r, c), k) == CellOf(s.peers[s.live[c]].inst.modules, r, k)
  {
    DrainedCells(es, c, r, k);
    OwnerAndHostAgree(es, w, Run(es).live[c], r, k);
  }

  /** Once drained, the process holds what was announced with the timely writes, the host with all. */
  lemma {:induction false} WhereBothStand(es: seq<Event>, c: nat, r: nat, k: nat)
    requires var s := Run(es); c in s.live && s.live[c] < |s.peers| && Drained(s, s.peers[s.live[c]]) && r in s.peers[s.live[c]].inst.modules
    requires Run(es).peers[Run(es).live[c]].down == [] && NeverWrittenBy(es, Run(es).live[c], r, k)
    ensures var s, l := Run(es), LocalId(Run(es).remotes, r, c);
            var i, first := s.peers[s.live[c]].inst, FirstCell(s.peers[s.live[c]].inst.handled, r, k);
            && CellOf(i.modules, r, k) == Written(first, TimelyWrites(es, l), k)
            && CellOf(s.host.modules, l, k) == Written(first, EarlyWrites(es, l) + TimelyWrites(es, l), k)
  {
    var s := Run(es);
    var p := s.live[c];
    DrainedCells(es, c, r, k);
    assert Connected(s, p);
    RunsStand(es, p, r, k);
    assert PeerOk(s.peers[p]) by { RunsKeep(es); }
    DrainedStands(s, p, EarlyWrites(es, s.peers[p].ids[r]), TimelyWrites(es, s.peers[p].ids[r]), r, k);
  }

  lemma DrainedStands(s: Sys, p: nat, early: seq<Update>, timely: seq<Update>, r: nat, k: nat)
    requires p < |s.peers| && r < |s.peers[p].ids| && Stands(s, p, early, timely, r, k)
    requires s.peers[p].inst.tasks == [] && s.peers[p].down == [] && TableOk(s.peers[p].inst) && r in s.peers[p].inst.modules
    requires HostCell(s, p, r, k) == None <==> CellOf(s.peers[p].inst.modules, r, k) == None
    ensures var first := FirstCell(s.peers[p].inst.handled, r, k);
            && CellOf(s.peers[p].inst.modules, r, k) == Written(first, timely, k)
            && HostCell(s, p, r, k) == Written(first, early + timely, k)
  {
    FirstMatches(s.peers[p].inst, r, k);
    assert Passing([], r, k) + Falling([], r, k) == [];
  }

  lemma FirstMatches(i: Inst, r: nat, k: nat)
    requires TableOk(i) && r in i.modules
    ensures CellOf(i.modules, r, k).Some? <==> FirstCell(i.handled, r, k).Some?
  {
    assert r in TableOf(i.modules) && TableOf(i.modules)[r] == ShapeOf(i.modules[r]);
    var j := ReplayedShape(i.handled, r);
    AnnouncementIs(i.handled, r, j);
    assert |FrozenAll(i.modules[r].properties)| == |FrozenAll(i.handled[j].properties)|;
  }

  lemma EqualIff(first: Property, early: seq<Update>, timely: seq<Update>, k: nat)
    requires NonNegative(early) && NonNegative(timely)
    ensures WriteTo(first, timely, k) == WriteTo(first, early + timely, k)
            <==> first.readOnly || Touches(timely, k) || LastWrite(early, k).None? || LastWrite(early, k) == Some(first.value)
  {
    LastOfConcat(early, timely, k);
    LastIfTouched(timely, k);
    WritesTheLast(first, timely, k);
    WritesTheLast(first, early + timely, k);
  }

  /** Browsers as the only writers of property k of a module that its connected owner still has: once
      everything is drained in both directions, owner and host agree if and only if the property is
      read-only, or some request that ran while the translation was there wrote it, or the last value
      that the requests before had for it is missing or the announced one. */
  lemma {:induction false} OwnerAndHostAgreeIff(es: seq<Event>, c: nat, r: nat, k: nat)
    requires var s := Run(es); c in s.live && s.live[c] < |s.peers| && Drained(s, s.peers[s.live[c]]) && r in s.peers[s.live[c]].inst.modules
    requires Run(es).peers[Run(es).live[c]].down == [] && NeverWrittenBy(es, Run(es).live[c], r, k)
    ensures var s, l := Run(es), LocalId(Run(es).remotes, r, c);
            var i := s.peers[s.live[c]].inst;
            var first, early := FirstCell(i.handled, r, k), LastWrite(EarlyWrites(es, l), k);
            && (first.Some? <==> k < |i.modules[r].properties|)
            && (CellOf(i.modules, r, k) == CellOf(s.host.modules, l, k)
                <==> first.None? || first.value.readOnly || Touches(TimelyWrites(es, l), k)
                     || early.None? || early.value == first.value.value)
  {
    var s, l := Run(es), LocalId(Run(es).remotes, r, c);
    var i := s.peers[s.live[c]].inst;
    WhereBothStand(es, c, r, k);
    assert PeerOk(s.peers[s.live[c]]) by { RunsKeep(es); }
    FirstMatches(i, r, k);
    WritesAreWell(es, l);
    var first := FirstCell(i.handled, r, k);
    if first.Some? { EqualIff(first.value, EarlyWrites(es, l), TimelyWrites(es, l), k); }
  }

  lemma {:induction false} InTimeWritesNothingEarly(es: seq<Event>, p: nat, r: nat, l: nat, k: nat)
    requires AllInTime(es, p, r, k) && (l < |Run(es).host.origins| ==> Run(es).host.origins[l] == Of(p, r))
    ensures !Touches(EarlyWrites(es, l), k)
    decreases |es|
  {
    if es != [] {
      var n := |es| - 1;
      var s := Run(es[..n]);
      InTimeBefore(es, n, p, r, k);
      StepGrows(s, es[n]);
      InTimeWritesNothingEarly(es[..n], p, r, l, k);
      if es[n].HostRun? && RunsRequest(s, l) && !Timely(s, l) {
        assert InTime(s, p, r, k);
        assert l < |s.host.origins| && OriginOk(s, l, s.host.origins[l]) by { RunsKeep(es[..n]); }
      }
    }
  }

  /** In particular they agree if every request for the property runs while the module is translated. */
  lemma {:induction false} BrowserValueReachesOwner(es: seq<Event>, c: nat, r: nat, k: nat)
    requires var s := Run(es); c in s.live && s.live[c] < |s.peers| && Drained(s, s.peers[s.live[c]]) && r in s.peers[s.live[c]].inst.modules
    requires Run(es).peers[Run(es).live[c]].down == []
    requires NeverWrittenBy(es, Run(es).live[c], r, k) && AllInTime(es, Run(es).live[c], r, k)
    ensures var s := Run(es);
            CellOf(s.peers[s.live[c]].inst.modules, r, k) == CellOf(s.host.modules, LocalId(s.remotes, r, c), k)
  {
    var s, l := Run(es), LocalId(Run(es).remotes, r, c);
    DrainedCells(es, c, r, k);
    assert IdsOk(s) by { RunsKeep(es); }
    IdIsReplicated(s, s.live[c], r);
    InTimeWritesNothingEarly(es, s.live[c], r, l, k);
    WritesAreWell(es, l);
    LastIfTouched(EarlyWrites(es, l), k);
    OwnerAndHostAgreeIff(es, c, r, k);
  }

  /* ---- Which requests are sent on ---- */

  /** Which requests are sent on: one for a replicated module of the host's table goes down to a process
      exactly when the module is translated and its client connected, and then to that client only. */
  lemma {:induction false} SentIffTranslated(es: seq<Event>, a: Apply)
    requires Run(es).host.tasks != [] && Run(es).host.tasks[0] == TPass(a) && a.updates != []
    requires a.id in Run(es).host.modules && !Owned(Run(es).host, a.id)
    ensures var s, s' := Run(es), RunHost(Run(es));
            && |s'.peers| == |s.peers|
            && (forall p :: 0 <= p < |s.peers| ==>
                 (s'.peers[p].down != s.peers[p].down <==>
                    a.id in s.remotes && s.remotes[a.id].client in s.live && s.live[s.remotes[a.id].client] == p))
  {
    var s := Run(es);
    assert !s.host.modules[a.id].hasCallback by { RunsRoute(es); }
    HandedOver(s.host, a);
  }
}
